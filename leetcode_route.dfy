/** The problems page router (client/src/components/leetcode/Leetcode.tsx):
    the problem name taken from the location's path, and which of the
    problem list and the problem detail is shown. */
module LeetcodeRoute {
  import opened Text
  import Api

  /** The last "/"-separated segment when there are more than two, else "". */
  function ProblemName(pathname: string): (r: string)
    ensures NoChar(r, '/')
  {
    var parts := Split(pathname, '/');
    if |parts| > 2 then parts[|parts| - 1] else ""
  }

  /** `showProblems`, both initially and after the effect: no problem named. */
  predicate ShowProblems(problemName: string) {
    problemName == ""
  }

  /** The detail view renders when `!showProblems && problemName`. */
  predicate DetailRendered(showProblems: bool, problemName: string) {
    !showProblems && problemName != ""
  }

  /** The list view renders when `showProblems`. */
  predicate ListRendered(showProblems: bool) {
    showProblems
  }

  /** Whatever `showProblems` holds the two views never render together, and
      once it mirrors the name exactly one of them renders: the detail view
      exactly when the path names a problem. */
  lemma ExactlyOneView(pathname: string, showProblems: bool)
    ensures !(DetailRendered(showProblems, ProblemName(pathname)) && ListRendered(showProblems))
    ensures var name := ProblemName(pathname);
      (DetailRendered(ShowProblems(name), name) != ListRendered(ShowProblems(name))) &&
      (DetailRendered(ShowProblems(name), name) <==> name != "")
  {
  }

  lemma {:induction false} SplitEmpty(c: char)
    ensures Split("", c) == [""]
  {
    SplitNoSeparator("", c);
  }

  /** A path ending in "/" names no problem, "/leetcode/" included. */
  lemma TrailingSlash(path: string)
    ensures ProblemName(path + "/") == ""
  {
    assert path + "/" == path + ['/'] + "";
    SplitAround(path, '/', "");
    SplitEmpty('/');
  }

  /** The paths the client navigates to name the problem they were built
      from, provided it has no "/": "/leetcode/<name>" (a table row) and
      "/leetcode/problem/<name>". */
  lemma PathNamesProblem(name: string)
    requires NoChar(name, '/')
    ensures ProblemName("/leetcode/" + name) == name
    ensures ProblemName(Api.ProblemPath(name)) == name
  {
    var leetcode := "leetcode";
    assert NoChar(leetcode, '/');
    var tail := leetcode + ['/'] + name;
    assert "/leetcode/" + name == [] + ['/'] + tail;
    Api.SplitAfterSegment(leetcode, '/', name);
    Api.SplitAfterSegment([], '/', tail);
    SplitNoSeparator(name, '/');
    Api.ProblemPathSegments(name);
  }
}
