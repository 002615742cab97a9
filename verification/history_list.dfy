/** The history view: its local filter state, the query parameters it builds, the mapping between
    the table's 0-based page and the API's 1-based page, the refetch effect, and which of the
    loading rows, the history rows or the empty message it shows. Dates are the opaque ISO-8601
    strings the date pickers' values serialise to. */
module HistoryList {
  import opened Api
  import opened ConversionSlice
  import opened ConversionLaws
  import opened JsString

  datatype Filters = Filters(search: string, dateFrom: Option<string>, dateTo: Option<string>)

  const NoFilters: Filters := Filters("", None, None)

  /** The number of placeholder rows shown while loading. */
  const SkeletonRows: nat := 5

  /** `search || undefined`: an empty search is omitted; anything else, spaces included, is sent. */
  function OptionalSearch(search: string): (r: Option<string>)
    ensures r.Some? <==> search != ""
    ensures r.Some? ==> r.value == search
  {
    if search == "" then None else Some(search)
  }

  /** The filters a query carries, read back. */
  function FiltersOf(p: HistoryParams): Filters {
    Filters(if p.search.Some? then p.search.value else "", p.dateFrom, p.dateTo)
  }

  /** The query of one fetch. It keeps the page, the limit and every filter: reading the filters
      back gives them exactly, and an optional parameter is present iff its filter is set. */
  function BuildParams(page: int, limit: int, f: Filters): (p: HistoryParams)
    ensures p.page == page && p.limit == limit
    ensures FiltersOf(p) == f
    ensures p.search.Some? <==> f.search != ""
    ensures p.dateFrom.Some? <==> f.dateFrom.Some?
    ensures p.dateTo.Some? <==> f.dateTo.Some?
  {
    HistoryParams(page, limit, OptionalSearch(f.search), f.dateFrom, f.dateTo)
  }

  /** The search text is not trimmed: any non-empty search, a blank one of spaces, tabs or
      no-break spaces included, is sent as it is. */
  lemma WhitespaceSearchIsSent(page: int, limit: int, f: Filters)
    requires f.search != ""
    ensures BuildParams(page, limit, f).search == Some(f.search)
    ensures IsBlank(f.search) ==> BuildParams(page, limit, f).search.Some?
  {
  }

  /** The 0-based page the table shows for the store's 1-based page. */
  function TablePage(storePage: int): (n: int)
    ensures n + 1 == storePage
    ensures storePage >= 1 ==> n >= 0
  {
    storePage - 1
  }

  /** Table page change to the 0-based `newPage`: fetch API page `newPage + 1`, same limit and filters. */
  function OnChangePage(newPage: int, limit: int, f: Filters): (c: Command)
    ensures c.GetConversionHistory?
    ensures TablePage(c.params.page) == newPage
    ensures c.params.limit == limit && FiltersOf(c.params) == f
  {
    GetConversionHistory(BuildParams(newPage + 1, limit, f))
  }

  /** The two page mappings invert each other in both directions. */
  lemma PageMappingsInverse(n: int, p: int, limit: int, f: Filters)
    ensures TablePage(OnChangePage(n, limit, f).params.page) == n
    ensures OnChangePage(TablePage(p), limit, f).params.page == p
  {
  }

  /** Rows-per-page change: fetch the first page with the new limit and the same filters. */
  function OnChangeRowsPerPage(newLimit: int, f: Filters): (c: Command)
    ensures c.GetConversionHistory?
    ensures c.params.page == 1 && c.params.limit == newLimit && FiltersOf(c.params) == f
  {
    GetConversionHistory(BuildParams(1, newLimit, f))
  }

  /** What the fetch effect depends on: the store's page and limit and the three filters. */
  datatype Deps = Deps(page: int, limit: int, filters: Filters)

  function DepsOf(h: HistoryState, f: Filters): Deps {
    Deps(h.page, h.limit, f)
  }

  /** The fetch effect: on mount (no previous dependencies) and whenever a dependency changed, it
      fetches the store's page with the store's limit and the current filters. */
  function EffectFetch(prev: Option<Deps>, now: Deps): (cmds: seq<Command>)
    ensures cmds != [] <==> prev != Some(now)
    ensures cmds != [] ==> cmds == [GetConversionHistory(BuildParams(now.page, now.limit, now.filters))]
  {
    if prev == Some(now) then [] else [GetConversionHistory(BuildParams(now.page, now.limit, now.filters))]
  }

  /** On the first mount, with the store in its initial state, the first page of ten unfiltered
      items is requested. */
  lemma MountFetch()
    ensures EffectFetch(None, DepsOf(InitialState.history, NoFilters))
         == [GetConversionHistory(HistoryParams(1, 10, None, None, None))]
  {
  }

  /** On a later mount the store keeps its page and limit while the filters start empty again, so
      the mount fetch asks for the store's page and limit with no filters. */
  lemma RemountFetch(h: HistoryState)
    ensures EffectFetch(None, DepsOf(h, NoFilters)) == [GetConversionHistory(BuildParams(h.page, h.limit, NoFilters))]
    ensures EffectFetch(None, DepsOf(h, NoFilters))[0].params == HistoryParams(h.page, h.limit, None, None, None)
  {
  }

  /** Changing a filter refetches at the store's current page: the page is not reset to 1. */
  lemma FilterChangeKeepsPage(h: HistoryState, f: Filters, g: Filters)
    requires f != g
    ensures EffectFetch(Some(DepsOf(h, f)), DepsOf(h, g)) == [GetConversionHistory(BuildParams(h.page, h.limit, g))]
  {
  }

  /** After a page change, once the server's page arrives the store's page differs, so the effect
      requests the very same page a second time. */
  lemma {:induction false} PageChangeFetchesTwice(s: ConversionState, n: int, f: Filters, p: HistoryResponse)
    requires p.page == n + 1 && p.limit == s.history.limit && s.history.page != n + 1
    ensures EffectFetch(Some(DepsOf(s.history, f)),
                        DepsOf(ApplyAll(s, [HistoryPending, HistoryFulfilled(p)]).history, f))
         == [OnChangePage(n, s.history.limit, f)]
  {
    HistorySucceeds(s, p);
  }

  /** The same happens after a rows-per-page change whose response moves the store to the new limit. */
  lemma {:induction false} RowsPerPageFetchesTwice(s: ConversionState, newLimit: int, f: Filters, p: HistoryResponse)
    requires p.page == 1 && p.limit == newLimit && s.history.limit != newLimit
    ensures EffectFetch(Some(DepsOf(s.history, f)),
                        DepsOf(ApplyAll(s, [HistoryPending, HistoryFulfilled(p)]).history, f))
         == [OnChangeRowsPerPage(newLimit, f)]
  {
    HistorySucceeds(s, p);
  }

  /** The body of the history table. */
  datatype TableBody = Skeleton(rows: nat) | Rows(items: seq<HistoryItem>) | EmptyMessage

  /** Loading takes precedence over the rows, and the rows over the empty message. */
  function Body(h: HistoryState): (b: TableBody)
    ensures b.Skeleton? <==> h.isLoading
    ensures b.Skeleton? ==> b.rows == SkeletonRows
    ensures b.Rows? <==> !h.isLoading && |h.items| > 0
    ensures b.Rows? ==> b.items == h.items
    ensures b.EmptyMessage? <==> !h.isLoading && h.items == []
  {
    if h.isLoading then Skeleton(SkeletonRows)
    else if |h.items| > 0 then Rows(h.items)
    else EmptyMessage
  }

  /** The pagination bar is shown exactly when there are items, loading or not: never beside the
      empty message, and once loading ends exactly beside the rows. */
  function ShowPagination(h: HistoryState): (shown: bool)
    ensures shown <==> |h.items| > 0
    ensures shown ==> !Body(h).EmptyMessage?
    ensures !h.isLoading ==> (shown <==> Body(h).Rows?)
  {
    |h.items| > 0
  }

  /** The history error alert is shown while the error is truthy: in a state whose error is absent
      or non-empty, exactly while an error is set. */
  function ErrorAlertShown(h: HistoryState): (shown: bool)
    ensures shown ==> h.error.Some?
    ensures ErrorShown(h.error) ==> (shown <==> h.error.Some?)
  {
    Truthy(h.error)
  }

  /** The first eight characters of an id followed by an ellipsis, as the table's id cell shows it. */
  function ShortId(id: string): (r: string)
    ensures |r| == (if |id| < 8 then |id| else 8) + 3
    ensures r[..|r| - 3] == id[..|r| - 3]
    ensures r[|r| - 3..] == "..."
  {
    (if |id| < 8 then id else id[..8]) + "..."
  }

  /** A successful empty fetch shows the empty message, never the loading rows, and no pagination. */
  lemma {:induction false} EmptyResultShowsEmptyState(s: ConversionState, total: int, page: int, limit: int, totalPages: int)
    ensures Body(Reduce(s, HistoryPending).history).Skeleton?
    ensures Body(ApplyAll(s, [HistoryPending, HistoryFulfilled(HistoryResponse([], total, page, limit, totalPages))]).history)
         == EmptyMessage
    ensures !ShowPagination(ApplyAll(s, [HistoryPending, HistoryFulfilled(HistoryResponse([], total, page, limit, totalPages))]).history)
  {
    HistorySucceeds(s, HistoryResponse([], total, page, limit, totalPages));
  }

  /** A failed fetch after a successful one keeps the old rows on screen beside the error alert. */
  lemma {:induction false} FailedFetchKeepsRows(s: ConversionState, m: string)
    requires |s.history.items| > 0 && m != ""
    ensures Body(ApplyAll(s, [HistoryPending, HistoryRejected(m)]).history) == Rows(s.history.items)
    ensures ErrorAlertShown(ApplyAll(s, [HistoryPending, HistoryRejected(m)]).history)
    ensures ShowPagination(ApplyAll(s, [HistoryPending, HistoryRejected(m)]).history)
  {
    ApplyTwo(s, HistoryPending, HistoryRejected(m));
  }

  /** The component's local state: the three filters and the record shown in the details dialog. */
  class HistoryListState {
    var filters: Filters
    var selected: Option<HistoryItem>

    constructor ()
      ensures filters == NoFilters && selected == None
    {
      filters := NoFilters;
      selected := None;
    }

    method SetSearch(value: string)
      modifies this
      ensures filters == old(filters).(search := value)
      ensures selected == old(selected)
    {
      filters := filters.(search := value);
    }

    method SetDateFrom(d: Option<string>)
      modifies this
      ensures filters == old(filters).(dateFrom := d)
      ensures selected == old(selected)
    {
      filters := filters.(dateFrom := d);
    }

    method SetDateTo(d: Option<string>)
      modifies this
      ensures filters == old(filters).(dateTo := d)
      ensures selected == old(selected)
    {
      filters := filters.(dateTo := d);
    }

    /** Both dates become unset, the search stays, and the Clear Dates button disappears. */
    method ClearDates()
      modifies this
      ensures filters == Filters(old(filters).search, None, None)
      ensures !ClearDatesVisible(filters)
      ensures selected == old(selected)
    {
      filters := filters.(dateFrom := None);
      filters := filters.(dateTo := None);
    }

    method ViewDetails(item: HistoryItem)
      modifies this
      ensures selected == Some(item) && filters == old(filters)
    {
      selected := Some(item);
    }

    method CloseDetails()
      modifies this
      ensures selected == None && filters == old(filters)
    {
      selected := None;
    }
  }

  /** The Clear Dates button is shown while either date is set, that is, exactly when clearing
      the dates would change the filters. */
  function ClearDatesVisible(f: Filters): (visible: bool)
    ensures visible <==> f != Filters(f.search, None, None)
    ensures visible <==> BuildParams(1, 1, f).dateFrom.Some? || BuildParams(1, 1, f).dateTo.Some?
  {
    f.dateFrom.Some? || f.dateTo.Some?
  }
}
