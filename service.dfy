/** The problem service of the server (server/src/problems/service.py): the
    sort orders, the validated and frozen filter record with its defaults
    and bounds, the forwarding of a filter to the problem query, and the
    lookup by public id. */
module Service {
  import opened Wrappers
  import Mixins

  /** The `SortOrder` string enum. */
  datatype SortOrder = Ascending | Descending | NoOrder

  function SortOrderValue(o: SortOrder): string {
    match o
    case Ascending => "asc"
    case Descending => "desc"
    case NoOrder => "none"
  }

  function ParseSortOrder(s: string): (r: Option<SortOrder>)
    ensures r.Some? ==> SortOrderValue(r.value) == s
  {
    if s == "asc" then Some(Ascending)
    else if s == "desc" then Some(Descending)
    else if s == "none" then Some(NoOrder)
    else None
  }

  /** Exactly "asc", "desc" and "none" are sort orders, each reading back as
      itself. */
  lemma SortOrderValues(s: string, o: SortOrder)
    ensures ParseSortOrder(s).Some? <==> s in {"asc", "desc", "none"}
    ensures ParseSortOrder(SortOrderValue(o)) == Some(o)
  {
  }

  /** A validated filter. Being a value, it cannot change once built, which
      is what `frozen = True` guarantees. */
  datatype FilterForProblem = FilterForProblem(
    tags: seq<string>, difficulty: seq<string>, acceptanceSort: SortOrder,
    limit: int, page: int, firstQuery: bool)

  /** The fields passed to the constructor; an absent one takes its default. */
  datatype FilterInput = FilterInput(
    tags: Option<seq<string>>, difficulty: Option<seq<string>>, acceptanceSort: Option<string>,
    limit: Option<int>, page: Option<int>, firstQuery: Option<bool>)

  /** The names of the fields that failed validation, in declaration order. */
  datatype ValidationError = ValidationError(fields: seq<string>)

  const DefaultLimit := 40
  const DefaultPage := 1

  /** `FilterForProblem(**input)`: defaults filled in, the sort order parsed,
      `limit` and `page` checked to be at least 1. */
  function MakeFilter(input: FilterInput): (r: Result<FilterForProblem, ValidationError>)
    ensures r.Ok? ==> r.value.limit >= 1 && r.value.page >= 1
    ensures r.Err? ==> r.error.fields != []
  {
    var sort := if input.acceptanceSort.None? then Some(NoOrder) else ParseSortOrder(input.acceptanceSort.value);
    var limit := OrElse(input.limit, DefaultLimit);
    var page := OrElse(input.page, DefaultPage);
    var failed := (if sort.None? then ["acceptance_sort"] else [])
      + (if limit < 1 then ["limit"] else [])
      + (if page < 1 then ["page"] else []);
    if failed != [] then Err(ValidationError(failed))
    else Ok(FilterForProblem(OrElse(input.tags, []), OrElse(input.difficulty, []), sort.value,
                             limit, page, OrElse(input.firstQuery, false)))
  }

  /** With nothing given: no tags, no difficulties, no sort, 40 per page,
      page 1, not a first query. */
  lemma Defaults()
    ensures MakeFilter(FilterInput(None, None, None, None, None, None)) ==
      Ok(FilterForProblem([], [], NoOrder, 40, 1, false))
  {
  }

  /** A filter is built exactly when the sort order is valid and the limit
      and page are at least 1; it then holds the given values, and every
      refusal names the failing fields. */
  lemma Validation(input: FilterInput)
    ensures var limit := OrElse(input.limit, DefaultLimit);
      var page := OrElse(input.page, DefaultPage);
      var sortOk := input.acceptanceSort.None? || ParseSortOrder(input.acceptanceSort.value).Some?;
      (MakeFilter(input).Ok? <==> sortOk && limit >= 1 && page >= 1) &&
      (MakeFilter(input).Ok? ==>
        var f := MakeFilter(input).value;
        f.limit == limit && f.page == page &&
        (input.tags.Some? ==> f.tags == input.tags.value) &&
        (input.difficulty.Some? ==> f.difficulty == input.difficulty.value) &&
        (input.acceptanceSort.Some? ==> SortOrderValue(f.acceptanceSort) == input.acceptanceSort.value)) &&
      (MakeFilter(input).Err? ==>
        ("limit" in MakeFilter(input).error.fields <==> limit < 1) &&
        ("page" in MakeFilter(input).error.fields <==> page < 1))
  {
  }

  /** The arguments of the problem query. */
  datatype ProblemQuery = ProblemQuery(
    tags: seq<string>, difficulty: seq<string>, acceptanceSort: SortOrder, limit: int, page: int)

  /** get_problems_by_filter's call. */
  function Forward(f: FilterForProblem): ProblemQuery {
    ProblemQuery(f.tags, f.difficulty, f.acceptanceSort, f.limit, f.page)
  }

  /** Two filters reach the query identically exactly when they differ at
      most in `first_query`: every other field is forwarded, that one never. */
  lemma ForwardDropsOnlyFirstQuery(f: FilterForProblem, g: FilterForProblem)
    ensures Forward(f) == Forward(g) <==> f.(firstQuery := g.firstQuery) == g
  {
  }

  /** `ProblemNotFoundError(problem_id)`. */
  datatype ProblemNotFoundError = ProblemNotFoundError(problemId: string)

  function NotFoundMessage(e: ProblemNotFoundError): string {
    "Problem with id " + e.problemId + " not found"
  }

  /** get_problem_by_public_id over the intended lookup: the problem, or the
      not-found error carrying the id. */
  function GetProblemByPublicId(rows: seq<Mixins.Row>, problemId: string): (r: Result<Mixins.Row, ProblemNotFoundError>)
    ensures r.Err? <==> forall i :: 0 <= i < |rows| ==> rows[i].publicId != problemId
    ensures r.Err? ==> r.error == ProblemNotFoundError(problemId)
    ensures r.Ok? ==> r.value in rows && r.value.publicId == problemId
  {
    var problem := Mixins.GetByPublicId(rows, problemId);
    if problem.None? then Err(ProblemNotFoundError(problemId)) else Ok(problem.value)
  }

  /** What escapes get_problem_by_public_id as written. */
  datatype ServiceError = NotFound(e: ProblemNotFoundError) | Lookup(cause: Mixins.LookupError)

  function GetProblemByPublicIdAsWritten(rows: seq<Mixins.Row>, problemId: string): Result<Mixins.Row, ServiceError> {
    match Mixins.GetByPublicIdAsWritten(rows, problemId)
    case Err(cause) => Err(Lookup(cause))
    case Ok(problem) => Ok(problem)
  }

  /** As written, a missing id surfaces as the lookup's AttributeError and
      the not-found error is never raised. */
  lemma NotFoundUnreachable(rows: seq<Mixins.Row>, problemId: string)
    ensures !(GetProblemByPublicIdAsWritten(rows, problemId).Err? &&
              GetProblemByPublicIdAsWritten(rows, problemId).error.NotFound?)
    ensures (forall i :: 0 <= i < |rows| ==> rows[i].publicId != problemId) ==>
      GetProblemByPublicIdAsWritten(rows, problemId) == Err(Lookup(Mixins.AttributeError))
  {
  }
}
