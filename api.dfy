/** The request builders of the client API (client/src/store/leetcode/api.ts):
    the ordered query parameters of a problem-list fetch, the snake_case body
    of a solution request, and the paths that embed an argument. The
    percent-encoding of the parameters and the HTTP calls are not modelled. */
module Api {
  import opened Text
  import opened Types

  /** One `params.append(key, value)`. */
  type Param = (string, string)

  /** One parameter per element, all under the same key, in order. */
  function Repeated(key: string, values: seq<string>): (ps: seq<Param>)
    ensures |ps| == |values|
    ensures forall i :: 0 <= i < |values| ==> ps[i] == (key, values[i])
  {
    seq(|values|, i requires 0 <= i < |values| => (key, values[i]))
  }

  /** The parameter list of `fetchProblems`. */
  function QueryParams(filters: ProblemFilters): seq<Param> {
    [("page", IntToString(filters.page)),
     ("limit", IntToString(filters.limit)),
     ("firstQuery", "true"),
     ("acceptanceSort", filters.acceptanceSort)]
    + Repeated("difficulty", filters.difficulty)
    + Repeated("tags", filters.tags)
  }

  /** fetchProblems: fills the parameter list by successive appends, the
      array fields in two `forEach` loops. */
  method FetchProblemsParams(filters: ProblemFilters) returns (params: seq<Param>)
    ensures params == QueryParams(filters)
  {
    params := [];
    params := params + [("page", IntToString(filters.page))];
    params := params + [("limit", IntToString(filters.limit))];
    params := params + [("firstQuery", "true")];
    params := params + [("acceptanceSort", filters.acceptanceSort)];
    ghost var head := params;
    var i := 0;
    while i < |filters.difficulty|
      invariant 0 <= i <= |filters.difficulty|
      invariant params == head + Repeated("difficulty", filters.difficulty[..i])
    {
      assert filters.difficulty[..i + 1] == filters.difficulty[..i] + [filters.difficulty[i]];
      params := params + [("difficulty", filters.difficulty[i])];
      i := i + 1;
    }
    assert filters.difficulty[..i] == filters.difficulty;
    head := params;
    var j := 0;
    while j < |filters.tags|
      invariant 0 <= j <= |filters.tags|
      invariant params == head + Repeated("tags", filters.tags[..j])
    {
      assert filters.tags[..j + 1] == filters.tags[..j] + [filters.tags[j]];
      params := params + [("tags", filters.tags[j])];
      j := j + 1;
    }
    assert filters.tags[..j] == filters.tags;
  }

  /** `URLSearchParams.getAll(key)`: every value under `key`, in order. */
  function GetAll(params: seq<Param>, key: string): (values: seq<string>)
    ensures |values| <= |params|
  {
    if params == [] then []
    else (if params[0].0 == key then [params[0].1] else []) + GetAll(params[1..], key)
  }

  lemma {:induction false} GetAllConcat(a: seq<Param>, b: seq<Param>, key: string)
    ensures GetAll(a + b, key) == GetAll(a, key) + GetAll(b, key)
  {
    if a == [] {
      assert a + b == b;
    } else {
      assert (a + b)[1..] == a[1..] + b;
      GetAllConcat(a[1..], b, key);
    }
  }

  lemma {:induction false} GetAllRepeated(k: string, values: seq<string>, key: string)
    ensures GetAll(Repeated(k, values), key) == if k == key then values else []
  {
    if values != [] {
      assert Repeated(k, values)[1..] == Repeated(k, values[1..]);
      GetAllRepeated(k, values[1..], key);
    }
  }

  /** Reading the parameters back by key recovers every field the client
      sends: each array element under its own repeated key, in order, page and
      limit as decimal strings that parse back to the numbers, and
      "firstQuery" as "true" whatever the filters say. */
  lemma QueryParamsRecover(filters: ProblemFilters)
    ensures var ps := QueryParams(filters);
      GetAll(ps, "difficulty") == filters.difficulty &&
      GetAll(ps, "tags") == filters.tags &&
      GetAll(ps, "acceptanceSort") == [filters.acceptanceSort] &&
      GetAll(ps, "firstQuery") == ["true"] &&
      GetAll(ps, "page") == [IntToString(filters.page)] &&
      GetAll(ps, "limit") == [IntToString(filters.limit)]
  {
    GetAllOfParams(filters, "difficulty");
    GetAllOfParams(filters, "tags");
    GetAllOfParams(filters, "acceptanceSort");
    GetAllOfParams(filters, "firstQuery");
    GetAllOfParams(filters, "page");
    GetAllOfParams(filters, "limit");
  }

  lemma GetAllOfParams(filters: ProblemFilters, key: string)
    ensures GetAll(QueryParams(filters), key) ==
      (if key == "page" then [IntToString(filters.page)] else [])
      + (if key == "limit" then [IntToString(filters.limit)] else [])
      + (if key == "firstQuery" then ["true"] else [])
      + (if key == "acceptanceSort" then [filters.acceptanceSort] else [])
      + (if key == "difficulty" then filters.difficulty else [])
      + (if key == "tags" then filters.tags else [])
  {
    var ps := QueryParams(filters);
    var fixed := ps[..4];
    var ds := Repeated("difficulty", filters.difficulty);
    var ts := Repeated("tags", filters.tags);
    assert ps == fixed + ds + ts;
    GetAllFour(fixed, key);
    GetAllConcat(fixed + ds, ts, key);
    GetAllConcat(fixed, ds, key);
    GetAllRepeated("difficulty", filters.difficulty, key);
    GetAllRepeated("tags", filters.tags, key);
  }

  lemma GetAllFour(ps: seq<Param>, key: string)
    requires |ps| == 4
    ensures GetAll(ps, key) ==
      (if ps[0].0 == key then [ps[0].1] else []) + (if ps[1].0 == key then [ps[1].1] else [])
      + (if ps[2].0 == key then [ps[2].1] else []) + (if ps[3].0 == key then [ps[3].1] else [])
  {
    var p1 := ps[1..];
    var p2 := p1[1..];
    var p3 := p2[1..];
    assert p3[1..] == [];
    assert p1[0] == ps[1] && p2[0] == ps[2] && p3[0] == ps[3];
    assert GetAll(p3, key) == (if ps[3].0 == key then [ps[3].1] else []) + GetAll(p3[1..], key);
    assert GetAll(p2, key) == (if ps[2].0 == key then [ps[2].1] else []) + GetAll(p3, key);
    assert GetAll(p1, key) == (if ps[1].0 == key then [ps[1].1] else []) + GetAll(p2, key);
  }

  /** The parameters come in the order page, limit, firstQuery,
      acceptanceSort, the difficulties, the tags; there are `4 + |difficulty|
      + |tags|` of them, one per array element; and the numbers parse back. */
  lemma QueryParamsLayout(filters: ProblemFilters)
    ensures var ps := QueryParams(filters);
      var d := |filters.difficulty|;
      |ps| == 4 + d + |filters.tags| &&
      ps[0].0 == "page" && ps[1].0 == "limit" && ps[2] == ("firstQuery", "true") &&
      ps[3] == ("acceptanceSort", filters.acceptanceSort) &&
      (forall i :: 0 <= i < d ==> ps[4 + i] == ("difficulty", filters.difficulty[i])) &&
      (forall i :: 0 <= i < |filters.tags| ==> ps[4 + d + i] == ("tags", filters.tags[i])) &&
      IsDecimal(ps[0].1) && ParseInt(ps[0].1) == filters.page &&
      IsDecimal(ps[1].1) && ParseInt(ps[1].1) == filters.limit
  {
    IntToStringRoundTrip(filters.page);
    IntToStringRoundTrip(filters.limit);
  }

  /** The client's own `firstQuery` flag never reaches the request. */
  lemma FirstQueryIgnored(filters: ProblemFilters, b: bool)
    ensures QueryParams(filters.(firstQuery := b)) == QueryParams(filters)
  {
  }

  /** The JSON body `generateSolution` posts: the request with its camelCase
      fields renamed to snake_case. */
  function SolutionBody(request: SolutionRequest): (body: Json)
    ensures body.JObj? && body.fields.Keys == {"model", "problem_id", "prog_lang", "additional_context"}
    ensures "problemId" !in body.fields && "progLang" !in body.fields && "additionalContext" !in body.fields
  {
    JObj(map[
      "model" := JStr(ModelName(request.model)),
      "problem_id" := JNum(request.problemId),
      "prog_lang" := JStr(request.progLang),
      "additional_context" := JStr(request.additionalContext)])
  }

  /** `/leetcode/search?query=${query}`, the query spliced in unencoded. */
  function SearchPath(query: string): (path: string)
    ensures StartsWith(path, "/leetcode/search?query=") && path[23..] == query
  {
    "/leetcode/search?query=" + query
  }

  /** `/leetcode/problem/${problemName}`, the name spliced in unencoded. */
  function ProblemPath(problemName: string): (path: string)
    ensures StartsWith(path, "/leetcode/problem/") && path[18..] == problemName
  {
    "/leetcode/problem/" + problemName
  }

  /** Since nothing is encoded, a name containing "/" or "?" changes the
      shape of the path: its segments are the route's plus the name's. */
  lemma ProblemPathSegments(problemName: string)
    ensures Split(ProblemPath(problemName), '/') == ["", "leetcode", "problem"] + Split(problemName, '/')
  {
    var leetcode, problem := "leetcode", "problem";
    assert NoChar(leetcode, '/') && NoChar(problem, '/');
    assert ProblemPath(problemName) == ['/'] + leetcode + ['/'] + problem + ['/'] + problemName;
    TwoSegmentsAfter(leetcode, problem, problemName);
  }

  lemma TwoSegmentsAfter(a: string, b: string, rest: string)
    requires NoChar(a, '/') && NoChar(b, '/')
    ensures Split(['/'] + a + ['/'] + b + ['/'] + rest, '/') == ["", a, b] + Split(rest, '/')
  {
    var inner := b + ['/'] + rest;
    var mid := a + ['/'] + inner;
    var full := ['/'] + a + ['/'] + b + ['/'] + rest;
    assert full == [] + ['/'] + mid;
    SplitAt(inner, b, '/', rest);
    SplitAt(mid, a, '/', inner);
    SplitAt(full, [], '/', mid);
  }

  lemma SplitAt(s: string, a: string, c: char, b: string)
    requires s == a + [c] + b && NoChar(a, c)
    ensures Split(s, c) == [a] + Split(b, c)
  {
    SplitAfterSegment(a, c, b);
  }

  lemma SplitAfterSegment(a: string, c: char, b: string)
    requires NoChar(a, c)
    ensures Split(a + [c] + b, c) == [a] + Split(b, c)
  {
    SplitAround(a, c, b);
    SplitNoSeparator(a, c);
  }
}
