/** The filter and page controller of the problem table
    (client/src/components/leetcode/table/ProblemList.tsx): the chosen
    difficulties, tags and sort, the current page, the filters sent on a
    search, and the page buttons. */
module ProblemListView {
  import opened Wrappers
  import opened Text
  import opened Types
  import opened Seqs
  import Pagination
  import Api

  /** The sort choice; `key` is `null` for "No sorting". */
  datatype SortConfig = SortConfig(key: Option<string>, direction: string)

  const InitialSort := SortConfig(None, "asc")

  /** The `acceptanceSort` sent to the server: the direction when sorting by
      acceptance rate, "asc" otherwise. */
  function AcceptanceSort(sort: SortConfig): (r: string)
    ensures sort.key == Some("acceptance_rate") ==> r == sort.direction
    ensures sort.key != Some("acceptance_rate") ==> r == "asc"
  {
    if sort.key == Some("acceptance_rate") then sort.direction else "asc"
  }

  /** handleSearch: the filters for the current selection. */
  function SearchFilters(currentPage: int, pageSize: int, difficulties: seq<string>,
                         selectedTags: seq<string>, sort: SortConfig): (f: ProblemFilters)
    ensures f.page == currentPage && f.limit == pageSize
    ensures f.difficulty == difficulties && f.tags == selectedTags
    ensures f.acceptanceSort == AcceptanceSort(sort) && f.firstQuery
  {
    ProblemFilters(currentPage, pageSize, difficulties, selectedTags, AcceptanceSort(sort), true)
  }

  /** What the server is asked for: the chosen difficulties and tags each
      under their own repeated key, the page and page size, and the
      acceptance direction only when sorting by acceptance rate. */
  lemma SearchRequest(currentPage: int, pageSize: int, difficulties: seq<string>,
                      selectedTags: seq<string>, sort: SortConfig)
    ensures var ps := Api.QueryParams(SearchFilters(currentPage, pageSize, difficulties, selectedTags, sort));
      Api.GetAll(ps, "difficulty") == difficulties && Api.GetAll(ps, "tags") == selectedTags &&
      Api.GetAll(ps, "page") == [IntToString(currentPage)] &&
      Api.GetAll(ps, "limit") == [IntToString(pageSize)] &&
      Api.GetAll(ps, "acceptanceSort") ==
        [if sort.key == Some("acceptance_rate") then sort.direction else "asc"]
  {
    Api.QueryParamsRecover(SearchFilters(currentPage, pageSize, difficulties, selectedTags, sort));
  }

  /** The checkbox updater: append when checked (no duplicate check),
      otherwise drop every occurrence. */
  function CheckUpdate(prev: seq<string>, value: string, checked: bool): seq<string> {
    if checked then prev + [value] else Remove(prev, value)
  }

  /** Checking appends exactly one copy at the end; unchecking keeps every
      other value in order and leaves no copy of the value. */
  lemma CheckUpdateEffect(prev: seq<string>, value: string)
    ensures CheckUpdate(prev, value, true) == prev + [value]
    ensures value !in CheckUpdate(prev, value, false)
    ensures forall v :: v != value ==> (v in CheckUpdate(prev, value, false) <==> v in prev)
  {
    var r := Remove(prev, value);
    forall v | v != value
      ensures v in r <==> v in prev
    {
      if v in prev {
        var i :| 0 <= i < |prev| && prev[i] == v;
      }
    }
  }

  /** The checkbox reports `checked` as the opposite of the current
      membership, so the updater used through the menu toggles the value
      and never introduces a duplicate. */
  lemma CheckboxToggles(prev: seq<string>, value: string)
    requires NoDuplicates(prev)
    ensures var r := CheckUpdate(prev, value, value !in prev);
      NoDuplicates(r) && (value in r <==> value !in prev)
  {
    if value in prev {
      RemoveNoDuplicates(prev, value);
    } else {
      AppendNoDuplicates(prev, value);
    }
  }

  /** Unchecking after checking a value that was not chosen restores the list. */
  lemma CheckThenUncheck(prev: seq<string>, value: string)
    requires value !in prev
    ensures CheckUpdate(CheckUpdate(prev, value, true), value, false) == prev
  {
    RemoveConcat(prev, [value], value);
    RemoveAbsent(prev, value);
    assert Remove([value], value) == [];
  }

  /** The select's value, `${key ?? "none"}-${direction}`. */
  function SortValue(sort: SortConfig): string {
    OrElse(sort.key, "none") + "-" + sort.direction
  }

  /** The select's change handler: `value.split("-")`, the first part the key
      ("none" meaning no key) and the second the direction. */
  function ParseSortValue(value: string): (sort: SortConfig)
    requires '-' in value
  {
    var parts := Split(value, '-');
    SortConfig(if parts[0] == "none" then None else Some(parts[0]), parts[1])
  }

  /** The select's value reads back as the sort it shows, for a key other
      than "none" and parts without "-". */
  lemma SortValueRoundTrip(sort: SortConfig)
    requires sort.key != Some("none")
    requires sort.key.Some? ==> NoChar(sort.key.value, '-')
    requires NoChar(sort.direction, '-')
    ensures '-' in SortValue(sort) && ParseSortValue(SortValue(sort)) == sort
  {
    var k := OrElse(sort.key, "none");
    assert NoChar("none", '-');
    assert SortValue(sort) == k + ['-'] + sort.direction;
    assert SortValue(sort)[|k|] == '-';
    SplitAround(k, '-', sort.direction);
    SplitNoSeparator(k, '-');
    SplitNoSeparator(sort.direction, '-');
  }

  /** The previous-page updater. */
  function PrevPage(page: int): (r: int)
    ensures r >= 1 && (page > 1 ==> r == page - 1)
  {
    if 1 >= page - 1 then 1 else page - 1
  }

  /** The next-page updater as written: `Math.min(pageCount, prev + 1)`. */
  function NextPageAsWritten(page: int, pageCount: int): (r: int)
    ensures r <= pageCount && r <= page + 1
  {
    if pageCount <= page + 1 then pageCount else page + 1
  }

  /** On an empty result (page count 0) the next button is enabled on page 1
      and sends the table to page 0, which the server refuses. */
  lemma NextPageLeavesRange()
    ensures !Pagination.NextDisabled(1, 0) && NextPageAsWritten(1, 0) == 0
  {
  }

  /** The next-page updater clamped to the pages that exist, page 1 counting
      as existing for an empty result: `Math.max(1, Math.min(pageCount, prev + 1))`. */
  function NextPage(page: int, pageCount: int): (r: int)
    requires page >= 1
    ensures 1 <= r <= page + 1
    ensures r <= pageCount || r == 1
    ensures pageCount >= 1 ==> r == NextPageAsWritten(page, pageCount)
    ensures 1 <= page < pageCount ==> r == page + 1
  {
    if pageCount <= page + 1 then (if pageCount >= 1 then pageCount else 1) else page + 1
  }

  /** The corrected update agrees with the source wherever the source stays
      on a page, and both buttons are disabled exactly where they are a no-op. */
  lemma PageButtons(page: int, pageCount: int)
    requires 1 <= page <= pageCount
    ensures NextPage(page, pageCount) == NextPageAsWritten(page, pageCount)
    ensures Pagination.PrevDisabled(page) <==> PrevPage(page) == page
    ensures Pagination.NextDisabled(page, pageCount) <==> NextPage(page, pageCount) == page
    ensures 1 <= PrevPage(page) <= pageCount && 1 <= NextPage(page, pageCount) <= pageCount
  {
  }

  /** The component state. The page size and page count come from the store. */
  class ProblemListController {
    var difficulties: seq<string>
    var selectedTags: seq<string>
    var sortConfig: SortConfig
    var currentPage: int

    ghost predicate Valid()
      reads this
    {
      currentPage >= 1
    }

    /** The filters the current selection sends. */
    function Filters(pageSize: int): (f: ProblemFilters)
      reads this
    {
      SearchFilters(currentPage, pageSize, difficulties, selectedTags, sortConfig)
    }

    /** Mounting: the initial state. The page effect also runs once on mount,
        which is a HandleSearch of page 1. */
    constructor ()
      ensures Valid()
      ensures difficulties == [] && selectedTags == [] && sortConfig == InitialSort && currentPage == 1
    {
      difficulties := [];
      selectedTags := [];
      sortConfig := InitialSort;
      currentPage := 1;
    }

    /** The "Apply Filters" button and the page effect. */
    method HandleSearch(pageSize: int) returns (filters: ProblemFilters)
      ensures filters == Filters(pageSize)
      ensures filters.page == currentPage && filters.firstQuery
    {
      filters := SearchFilters(currentPage, pageSize, difficulties, selectedTags, sortConfig);
    }

    /** A difficulty checkbox; no request is sent until Apply. */
    method DifficultyChange(difficulty: string, checked: bool)
      modifies this
      ensures difficulties == CheckUpdate(old(difficulties), difficulty, checked)
      ensures selectedTags == old(selectedTags) && sortConfig == old(sortConfig)
      ensures currentPage == old(currentPage)
    {
      difficulties := CheckUpdate(difficulties, difficulty, checked);
    }

    /** A tag checkbox; no request is sent until Apply. */
    method TagChange(tag: string, checked: bool)
      modifies this
      ensures selectedTags == CheckUpdate(old(selectedTags), tag, checked)
      ensures difficulties == old(difficulties) && sortConfig == old(sortConfig)
      ensures currentPage == old(currentPage)
    {
      selectedTags := CheckUpdate(selectedTags, tag, checked);
    }

    /** The sort select; no request is sent until Apply. */
    method SortChange(value: string)
      requires '-' in value
      modifies this
      ensures sortConfig == ParseSortValue(value)
      ensures difficulties == old(difficulties) && selectedTags == old(selectedTags)
      ensures currentPage == old(currentPage)
    {
      sortConfig := ParseSortValue(value);
    }

    /** Moves to `page`; the page effect refetches exactly when the page changed. */
    method SetPage(page: int, pageSize: int) returns (fetch: Option<ProblemFilters>)
      requires page >= 1
      modifies this
      ensures Valid() && currentPage == page
      ensures difficulties == old(difficulties) && selectedTags == old(selectedTags)
      ensures sortConfig == old(sortConfig)
      ensures fetch.Some? <==> page != old(currentPage)
      ensures fetch.Some? ==> fetch.value == Filters(pageSize)
    {
      var changed := page != currentPage;
      currentPage := page;
      if changed {
        var f := HandleSearch(pageSize);
        fetch := Some(f);
      } else {
        fetch := None;
      }
    }

    method GoPrevious(pageSize: int) returns (fetch: Option<ProblemFilters>)
      requires Valid()
      modifies this
      ensures Valid() && currentPage == PrevPage(old(currentPage))
      ensures difficulties == old(difficulties) && selectedTags == old(selectedTags)
      ensures sortConfig == old(sortConfig)
      ensures fetch.Some? <==> old(currentPage) > 1
      ensures fetch.Some? ==> fetch.value == Filters(pageSize)
    {
      fetch := SetPage(PrevPage(currentPage), pageSize);
    }

    method GoNext(pageCount: int, pageSize: int) returns (fetch: Option<ProblemFilters>)
      requires Valid()
      modifies this
      ensures Valid() && currentPage == NextPage(old(currentPage), pageCount)
      ensures difficulties == old(difficulties) && selectedTags == old(selectedTags)
      ensures sortConfig == old(sortConfig)
      ensures fetch.Some? <==> NextPage(old(currentPage), pageCount) != old(currentPage)
      ensures fetch.Some? ==> fetch.value == Filters(pageSize)
    {
      fetch := SetPage(NextPage(currentPage, pageCount), pageSize);
    }

    /** The page select, which offers the pages 1 to the page count. */
    method SelectPage(item: int, pageCount: int, pageSize: int) returns (fetch: Option<ProblemFilters>)
      requires 0 <= item < pageCount
      modifies this
      ensures Valid() && currentPage == item + 1
      ensures difficulties == old(difficulties) && selectedTags == old(selectedTags)
      ensures sortConfig == old(sortConfig)
      ensures fetch.Some? <==> item + 1 != old(currentPage)
      ensures fetch.Some? ==> fetch.value == Filters(pageSize)
    {
      fetch := SetPage(item + 1, pageSize);
    }
  }
}
