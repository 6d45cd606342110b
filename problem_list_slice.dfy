/** The problem-list store slice (client/src/store/leetcode/slice.ts): the
    payload built by the fetch thunk from a server reply, and the reducer
    cases for the fetch lifecycle, the site info and `setProblemList`. */
module ProblemListSlice {
  import opened Wrappers
  import opened Types

  /** `Math.ceil(total / limit)` for a positive limit. */
  function CeilDiv(total: int, limit: int): (r: int)
    requires limit > 0
    ensures (r - 1) * limit < total <= r * limit
  {
    -((-total) / limit)
  }

  /** The value the fetch thunk resolves with. */
  datatype FetchedPage = FetchedPage(problems: ProblemList, totalCount: int)

  /** fetchProblemsThunk: the reply's problems and total count, wrapped with
      the page count and the requested page and limit. */
  function FetchPayload(problems: seq<ProblemBasic>, totalCount: int, filters: ProblemFilters): (p: FetchedPage)
    requires filters.limit > 0
  {
    FetchedPage(
      ProblemList(problems, CeilDiv(totalCount, filters.limit), filters.page, filters.limit),
      totalCount)
  }

  /** The payload carries the reply and the request's page and limit, and its
      page count is the least number of pages of `limit` rows holding all
      `totalCount` problems. */
  lemma FetchPayloadFields(problems: seq<ProblemBasic>, totalCount: int, filters: ProblemFilters)
    requires filters.limit > 0 && totalCount >= 0
    ensures var p := FetchPayload(problems, totalCount, filters);
      p.problems.problems == problems && p.totalCount == totalCount &&
      p.problems.currentPage == filters.page && p.problems.currentLimit == filters.limit &&
      p.problems.pageCount >= 0 &&
      p.problems.pageCount * filters.limit >= totalCount &&
      (forall c :: 0 <= c < p.problems.pageCount ==> c * filters.limit < totalCount)
  {
    var pc := CeilDiv(totalCount, filters.limit);
    forall c | 0 <= c < pc
      ensures c * filters.limit < totalCount
    {
      assert c * filters.limit <= (pc - 1) * filters.limit;
    }
  }

  /** Every page from 1 to the page count holds at least one problem, and no
      problem lies beyond the last page. */
  lemma EveryPageNonEmpty(totalCount: int, limit: int, page: int)
    requires limit > 0 && totalCount >= 0
    requires 1 <= page <= CeilDiv(totalCount, limit)
    ensures (page - 1) * limit < totalCount
  {
    assert (page - 1) * limit <= (CeilDiv(totalCount, limit) - 1) * limit;
  }

  /** The slice state. */
  datatype ListState = ListState(
    problemList: Option<ProblemList>, loading: bool, error: Option<string>,
    tags: seq<string>, pageSize: int, problemCnt: int)

  const Initial := ListState(None, false, None, [], 40, 0)

  const DefaultFetchError := "Failed to fetch problems"

  /** The actions the slice handles. A rejection carries the error's message,
      which may be absent. */
  datatype Action =
    | SetProblemList(list: ProblemList)
    | FetchPending
    | FetchFulfilled(payload: FetchedPage)
    | FetchRejected(message: Option<string>)
    | InfoFulfilled(tags: seq<string>, pageSize: int, problemCnt: int)

  /** The slice reducer. */
  function Reduce(s: ListState, a: Action): (r: ListState)
    ensures !a.InfoFulfilled? ==> r.tags == s.tags && r.pageSize == s.pageSize
    ensures a.FetchPending? || a.FetchRejected? || a.InfoFulfilled? ==> r.problemList == s.problemList
    ensures r.problemCnt != s.problemCnt ==> a.FetchFulfilled? || a.InfoFulfilled?
    ensures r.loading <==> a.FetchPending? || (s.loading && (a.SetProblemList? || a.InfoFulfilled?))
  {
    match a
    case SetProblemList(list) => s.(problemList := Some(list))
    case FetchPending => s.(loading := true, error := None)
    case FetchFulfilled(p) =>
      s.(problemList := Some(p.problems), problemCnt := p.totalCount, loading := false, error := None)
    case FetchRejected(m) => s.(loading := false, error := Some(OrElse(m, DefaultFetchError)))
    case InfoFulfilled(t, size, cnt) => s.(tags := t, pageSize := size, problemCnt := cnt)
  }

  /** A request that succeeds installs the fetched list and total and ends
      in a clean, idle state, whatever was there before. */
  lemma FetchSucceeds(s: ListState, p: FetchedPage)
    ensures var t := Reduce(Reduce(s, FetchPending), FetchFulfilled(p));
      t.problemList == Some(p.problems) && t.problemCnt == p.totalCount &&
      !t.loading && t.error.None? && t.tags == s.tags && t.pageSize == s.pageSize
  {
  }

  /** A request that fails keeps the list and count shown before it, ends idle
      and reports the error's message, or the default one when it has none. */
  lemma FetchFails(s: ListState, m: Option<string>)
    ensures var t := Reduce(Reduce(s, FetchPending), FetchRejected(m));
      t.problemList == s.problemList && t.problemCnt == s.problemCnt &&
      !t.loading && t.error == Some(if m.Some? then m.value else DefaultFetchError)
  {
  }

  /** The site info touches none of the fields of the fetch lifecycle, so it
      commutes with the start of a fetch and with `setProblemList`. */
  lemma InfoCommutes(s: ListState, t: seq<string>, size: int, cnt: int, list: ProblemList)
    ensures Reduce(Reduce(s, InfoFulfilled(t, size, cnt)), FetchPending)
         == Reduce(Reduce(s, FetchPending), InfoFulfilled(t, size, cnt))
    ensures Reduce(Reduce(s, InfoFulfilled(t, size, cnt)), SetProblemList(list))
         == Reduce(Reduce(s, SetProblemList(list)), InfoFulfilled(t, size, cnt))
  {
  }

  /** The info reply and a fetched page both write the problem count: the
      one that arrives last wins, and that is the only field they race on. */
  lemma CountRace(s: ListState, t: seq<string>, size: int, cnt: int, p: FetchedPage)
    ensures var a := Reduce(Reduce(s, InfoFulfilled(t, size, cnt)), FetchFulfilled(p));
            var b := Reduce(Reduce(s, FetchFulfilled(p)), InfoFulfilled(t, size, cnt));
      a.problemCnt == p.totalCount && b.problemCnt == cnt && a == b.(problemCnt := p.totalCount)
  {
  }

  /** The store holding the slice; each method is one reducer case and
      assigns the fields of the state in place. */
  class ProblemListStore {
    var problemList: Option<ProblemList>
    var loading: bool
    var error: Option<string>
    var tags: seq<string>
    var pageSize: int
    var problemCnt: int

    function State(): ListState
      reads this
    {
      ListState(problemList, loading, error, tags, pageSize, problemCnt)
    }

    constructor ()
      ensures State() == Initial
    {
      problemList := None;
      loading := false;
      error := None;
      tags := [];
      pageSize := 40;
      problemCnt := 0;
    }

    method SetList(list: ProblemList)
      modifies this
      ensures State() == Reduce(old(State()), SetProblemList(list))
    {
      problemList := Some(list);
    }

    method Pending()
      modifies this
      ensures State() == Reduce(old(State()), FetchPending)
    {
      loading := true;
      error := None;
    }

    method Fulfilled(payload: FetchedPage)
      modifies this
      ensures State() == Reduce(old(State()), FetchFulfilled(payload))
    {
      problemList := Some(payload.problems);
      problemCnt := payload.totalCount;
      loading := false;
      error := None;
    }

    method Rejected(message: Option<string>)
      modifies this
      ensures State() == Reduce(old(State()), FetchRejected(message))
    {
      loading := false;
      error := Some(OrElse(message, DefaultFetchError));
    }

    method InfoLoaded(newTags: seq<string>, newPageSize: int, newProblemCnt: int)
      modifies this
      ensures State() == Reduce(old(State()), InfoFulfilled(newTags, newPageSize, newProblemCnt))
    {
      tags := newTags;
      pageSize := newPageSize;
      problemCnt := newProblemCnt;
    }
  }
}
