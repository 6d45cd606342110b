/** The problem-detail store slice (client/src/store/leetcode/problemSlice.ts):
    the record of the open problem with its per-language solution map, and
    the reducer cases for loading a problem and generating a solution. */
module ProblemSlice {
  import opened Wrappers
  import opened Types

  /** generateSolutionThunk: the reply with its language overwritten by the
      language that was asked for. */
  function GenerateSolutionPayload(response: Solution, request: SolutionRequest): (s: Solution)
    ensures s.language == request.progLang
    ensures s.code == response.code && s.timeComplexity == response.timeComplexity
    ensures s.spaceComplexity == response.spaceComplexity
  {
    response.(language := request.progLang)
  }

  /** The slice state. */
  datatype InfoState = InfoState(
    problemInfo: Option<QuestionDetail>, loading: bool, solutionLoading: bool,
    chatLoading: bool, error: Option<string>)

  const Initial := InfoState(None, false, false, false, None)

  const DefaultInfoError := "Failed to fetch problem info"
  const DefaultSolutionError := "Failed to generate solution"

  datatype Action =
    | InfoPending
    | InfoFulfilled(problem: ProblemAdvanced)
    | InfoRejected(message: Option<string>)
    | SolutionPending
    | SolutionFulfilled(solution: Solution)
    | SolutionRejected(message: Option<string>)

  /** The record installed for a freshly loaded problem. */
  function FreshDetail(problem: ProblemAdvanced): QuestionDetail {
    QuestionDetail(Gpt4oMini, problem, [], map[])
  }

  /** `{...info, solution: {...info.solution, [s.language]: s}}`. */
  function WithSolution(info: QuestionDetail, s: Solution): (r: QuestionDetail)
    ensures r.model == info.model && r.problem == info.problem && r.chat == info.chat
    ensures r.solution.Keys == info.solution.Keys + {s.language}
    ensures r.solution[s.language] == s
    ensures forall lang :: lang in info.solution && lang != s.language ==> r.solution[lang] == info.solution[lang]
  {
    info.(solution := info.solution[s.language := s])
  }

  /** The slice reducer. */
  function Reduce(st: InfoState, a: Action): (r: InfoState)
    ensures r.chatLoading == st.chatLoading
    ensures r.problemInfo.Some? && !a.InfoFulfilled? ==>
      st.problemInfo.Some? && r.problemInfo.value.problem == st.problemInfo.value.problem
    ensures r.error != st.error ==> a.InfoRejected? || a.SolutionRejected?
  {
    match a
    case InfoPending => st.(loading := true)
    case InfoFulfilled(p) => st.(loading := false, problemInfo := Some(FreshDetail(p)))
    case InfoRejected(m) => st.(loading := false, error := Some(OrElse(m, DefaultInfoError)))
    case SolutionPending => st.(solutionLoading := true)
    case SolutionFulfilled(s) =>
      st.(solutionLoading := false,
          problemInfo := if st.problemInfo.Some? then Some(WithSolution(st.problemInfo.value, s)) else None)
    case SolutionRejected(m) => st.(solutionLoading := false, error := Some(OrElse(m, DefaultSolutionError)))
  }

  /** `chatLoading` is never changed by any action. */
  lemma ChatLoadingFixed(st: InfoState, a: Action)
    ensures Reduce(st, a).chatLoading == st.chatLoading
  {
  }

  /** Loading a problem starts afresh: model gpt-4o-mini, no chat and no
      solutions, whatever solutions the previous problem had. */
  lemma LoadDiscardsSolutions(st: InfoState, p: ProblemAdvanced)
    ensures var t := Reduce(st, InfoFulfilled(p));
      t.problemInfo.Some? && t.problemInfo.value.problem == p &&
      t.problemInfo.value.model == Gpt4oMini && t.problemInfo.value.chat == [] &&
      t.problemInfo.value.solution == map[] && !t.loading
  {
  }

  /** A generated solution for a request is filed under the requested
      language; every other language keeps its solution. */
  lemma SolutionFiledUnderRequest(st: InfoState, response: Solution, request: SolutionRequest)
    requires st.problemInfo.Some?
    ensures var t := Reduce(st, SolutionFulfilled(GenerateSolutionPayload(response, request)));
      var old_ := st.problemInfo.value.solution;
      t.problemInfo.Some? && request.progLang in t.problemInfo.value.solution &&
      t.problemInfo.value.solution[request.progLang].code == response.code &&
      t.problemInfo.value.solution.Keys == old_.Keys + {request.progLang} &&
      (forall lang :: lang in old_ && lang != request.progLang ==>
        t.problemInfo.value.solution[lang] == old_[lang]) &&
      t.problemInfo.value.problem == st.problemInfo.value.problem &&
      t.problemInfo.value.chat == st.problemInfo.value.chat &&
      t.problemInfo.value.model == st.problemInfo.value.model
  {
  }

  /** Generating the same language twice keeps only the later solution;
      generating two different languages files both, in either order. */
  lemma SolutionsOverwriteAndCommute(info: QuestionDetail, s1: Solution, s2: Solution)
    ensures s1.language == s2.language ==> WithSolution(WithSolution(info, s1), s2) == WithSolution(info, s2)
    ensures s1.language != s2.language ==>
      WithSolution(WithSolution(info, s1), s2) == WithSolution(WithSolution(info, s2), s1)
  {
  }

  /** A solution arriving while no problem is loaded is dropped; only the
      solution spinner stops. */
  lemma SolutionWithoutProblem(st: InfoState, s: Solution)
    requires st.problemInfo.None?
    ensures Reduce(st, SolutionFulfilled(s)) == st.(solutionLoading := false)
  {
  }

  /** Failures stop their own spinner, record the message (or the default)
      and keep the loaded problem; starting a request does not clear an
      earlier error. */
  lemma FailuresKeepProblem(st: InfoState, m: Option<string>)
    ensures var t := Reduce(st, InfoRejected(m));
      t.problemInfo == st.problemInfo && !t.loading && t.solutionLoading == st.solutionLoading &&
      t.error == Some(if m.Some? then m.value else DefaultInfoError)
    ensures var t := Reduce(st, SolutionRejected(m));
      t.problemInfo == st.problemInfo && !t.solutionLoading && t.loading == st.loading &&
      t.error == Some(if m.Some? then m.value else DefaultSolutionError)
    ensures Reduce(st, InfoPending).error == st.error && Reduce(st, SolutionPending).error == st.error
  {
  }

  /** The store holding the slice; each method is one reducer case. */
  class ProblemInfoStore {
    var problemInfo: Option<QuestionDetail>
    var loading: bool
    var solutionLoading: bool
    var chatLoading: bool
    var error: Option<string>

    function State(): InfoState
      reads this
    {
      InfoState(problemInfo, loading, solutionLoading, chatLoading, error)
    }

    constructor ()
      ensures State() == Initial
    {
      problemInfo := None;
      loading := false;
      solutionLoading := false;
      chatLoading := false;
      error := None;
    }

    method FetchInfoPending()
      modifies this
      ensures State() == Reduce(old(State()), InfoPending)
    {
      loading := true;
    }

    method FetchInfoFulfilled(problem: ProblemAdvanced)
      modifies this
      ensures State() == Reduce(old(State()), InfoFulfilled(problem))
    {
      loading := false;
      problemInfo := Some(FreshDetail(problem));
    }

    method FetchInfoRejected(message: Option<string>)
      modifies this
      ensures State() == Reduce(old(State()), InfoRejected(message))
    {
      loading := false;
      error := Some(OrElse(message, DefaultInfoError));
    }

    method GeneratePending()
      modifies this
      ensures State() == Reduce(old(State()), SolutionPending)
    {
      solutionLoading := true;
    }

    method GenerateFulfilled(solution: Solution)
      modifies this
      ensures State() == Reduce(old(State()), SolutionFulfilled(solution))
    {
      solutionLoading := false;
      if problemInfo.Some? {
        problemInfo := Some(WithSolution(problemInfo.value, solution));
      }
    }

    method GenerateRejected(message: Option<string>)
      modifies this
      ensures State() == Reduce(old(State()), SolutionRejected(message))
    {
      solutionLoading := false;
      error := Some(OrElse(message, DefaultSolutionError));
    }
  }
}
