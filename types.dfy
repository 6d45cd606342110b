/** The client's store types (client/src/store/leetcode/type.ts). Each zod
    schema becomes a datatype (the inferred TypeScript type) and a validator
    `ParseX` from a decoded JSON value to that datatype: a zod object schema
    accepts an object whose listed keys hold values of the listed shapes and
    drops every other key. JSON numbers are integers in this model. */
module Types {
  import opened Wrappers

  /** A decoded JSON value; an object is a map from keys to values. */
  datatype Json =
    | JNull
    | JBool(b: bool)
    | JNum(n: int)
    | JStr(s: string)
    | JArr(items: seq<Json>)
    | JObj(fields: map<string, Json>)

  // ---- z.enum(["Easy", "Medium", "Hard"]) ----

  datatype Difficulty = Easy | Medium | Hard

  function DifficultyName(d: Difficulty): string {
    match d
    case Easy => "Easy"
    case Medium => "Medium"
    case Hard => "Hard"
  }

  function ParseDifficulty(s: string): (r: Option<Difficulty>)
    ensures r.Some? ==> DifficultyName(r.value) == s
  {
    if s == "Easy" then Some(Easy)
    else if s == "Medium" then Some(Medium)
    else if s == "Hard" then Some(Hard)
    else None
  }

  /** A difficulty string is valid exactly when it is one of the three names,
      and every name reads back as its difficulty. */
  lemma DifficultyValidity(s: string, d: Difficulty)
    ensures ParseDifficulty(s).Some? <==> s in {"Easy", "Medium", "Hard"}
    ensures ParseDifficulty(DifficultyName(d)) == Some(d)
  {
  }

  // ---- z.enum of model names ----

  datatype Model = Gpt4o | Gpt35Turbo | Claude35Sonnet | Gpt4oMini

  function ModelName(m: Model): string {
    match m
    case Gpt4o => "gpt-4o"
    case Gpt35Turbo => "gpt-3.5-turbo"
    case Claude35Sonnet => "claude-3-5-sonnet"
    case Gpt4oMini => "gpt-4o-mini"
  }

  function ParseModel(s: string): (r: Option<Model>)
    ensures r.Some? ==> ModelName(r.value) == s
  {
    if s == "gpt-4o" then Some(Gpt4o)
    else if s == "gpt-3.5-turbo" then Some(Gpt35Turbo)
    else if s == "claude-3-5-sonnet" then Some(Claude35Sonnet)
    else if s == "gpt-4o-mini" then Some(Gpt4oMini)
    else None
  }

  /** Exactly the four fixed names are models. */
  lemma ModelValidity(s: string, m: Model)
    ensures ParseModel(s).Some? <==> s in {"gpt-4o", "gpt-3.5-turbo", "claude-3-5-sonnet", "gpt-4o-mini"}
    ensures ParseModel(ModelName(m)) == Some(m)
  {
  }

  // ---- datatypes of the inferred types ----

  datatype Tag = Tag(name: string, id: string)

  datatype ProblemBasic = ProblemBasic(
    id: int, name: string, link: string, difficulty: Difficulty,
    acceptanceRate: string, tags: seq<Tag>, publicId: string)

  /** ProblemBasicSchema.extend({description}). */
  datatype ProblemAdvanced = ProblemAdvanced(basic: ProblemBasic, description: string)

  datatype ProblemList = ProblemList(
    problems: seq<ProblemBasic>, pageCount: int, currentPage: int, currentLimit: int)

  datatype ProblemFilters = ProblemFilters(
    page: int, limit: int, difficulty: seq<string>, tags: seq<string>,
    acceptanceSort: string, firstQuery: bool)

  datatype Solution = Solution(
    language: string, code: string, timeComplexity: string, spaceComplexity: string)

  datatype ChatEntry = ChatEntry(question: string, answer: string, model: Model)

  datatype QuestionDetail = QuestionDetail(
    model: Model, problem: ProblemAdvanced, chat: seq<ChatEntry>, solution: map<string, Solution>)

  datatype SolutionRequest = SolutionRequest(
    model: Model, problemId: int, progLang: string, additionalContext: string)

  // ---- field access ----

  function Str(j: Json, key: string): Option<string> {
    if j.JObj? && key in j.fields && j.fields[key].JStr? then Some(j.fields[key].s) else None
  }

  function Num(j: Json, key: string): Option<int> {
    if j.JObj? && key in j.fields && j.fields[key].JNum? then Some(j.fields[key].n) else None
  }

  function Bool(j: Json, key: string): Option<bool> {
    if j.JObj? && key in j.fields && j.fields[key].JBool? then Some(j.fields[key].b) else None
  }

  function Arr(j: Json, key: string): Option<seq<Json>> {
    if j.JObj? && key in j.fields && j.fields[key].JArr? then Some(j.fields[key].items) else None
  }

  /** z.array(z.string()): every element must be a string. */
  function ParseStrings(items: seq<Json>): (r: Option<seq<string>>)
    ensures r.Some? <==> forall i :: 0 <= i < |items| ==> items[i].JStr?
    ensures r.Some? ==>
      |r.value| == |items| && forall i :: 0 <= i < |items| ==> items[i] == JStr(r.value[i])
  {
    if items == [] then Some([])
    else if !items[0].JStr? then None
    else match ParseStrings(items[1..])
      case None => None
      case Some(rest) => Some([items[0].s] + rest)
  }

  function StringsJson(xs: seq<string>): (r: seq<Json>)
    ensures |r| == |xs| && forall i :: 0 <= i < |xs| ==> r[i] == JStr(xs[i])
  {
    seq(|xs|, i requires 0 <= i < |xs| => JStr(xs[i]))
  }

  lemma StringsRoundTrip(xs: seq<string>)
    ensures ParseStrings(StringsJson(xs)) == Some(xs)
  {
    var r := ParseStrings(StringsJson(xs));
    assert r.value == xs;
  }

  // ---- tags ----

  function ParseTag(j: Json): Option<Tag> {
    if Str(j, "name").Some? && Str(j, "id").Some?
    then Some(Tag(Str(j, "name").value, Str(j, "id").value))
    else None
  }

  function TagJson(t: Tag): Json {
    JObj(map["name" := JStr(t.name), "id" := JStr(t.id)])
  }

  /** z.array(TagSchema): every element must be a tag. */
  function ParseTags(items: seq<Json>): (r: Option<seq<Tag>>)
    ensures r.Some? <==> forall i :: 0 <= i < |items| ==> ParseTag(items[i]).Some?
    ensures r.Some? ==>
      |r.value| == |items| && forall i :: 0 <= i < |items| ==> ParseTag(items[i]) == Some(r.value[i])
  {
    if items == [] then Some([])
    else
      var t, rest := ParseTag(items[0]), ParseTags(items[1..]);
      if t.Some? && rest.Some? then Some([t.value] + rest.value) else None
  }

  function TagsJson(ts: seq<Tag>): seq<Json> {
    if ts == [] then [] else [TagJson(ts[0])] + TagsJson(ts[1..])
  }

  lemma {:induction false} TagsRoundTrip(ts: seq<Tag>)
    ensures ParseTags(TagsJson(ts)) == Some(ts)
  {
    if ts != [] {
      TagsRoundTrip(ts[1..]);
      var j := TagsJson(ts);
      assert j[0] == TagJson(ts[0]) && j[1..] == TagsJson(ts[1..]);
      assert ParseTag(j[0]) == Some(ts[0]);
      assert [ts[0]] + ts[1..] == ts;
    }
  }

  // ---- problems ----

  function ParseProblemBasic(j: Json): Option<ProblemBasic> {
    var id, name, link, d := Num(j, "id"), Str(j, "name"), Str(j, "link"), Str(j, "difficulty");
    var rate, ts, pid := Str(j, "acceptance_rate"), Arr(j, "tags"), Str(j, "public_id");
    if id.None? || name.None? || link.None? || d.None? || rate.None? || ts.None? || pid.None? then None
    else
      var diff, tags := ParseDifficulty(d.value), ParseTags(ts.value);
      if diff.None? || tags.None? then None
      else Some(ProblemBasic(id.value, name.value, link.value, diff.value, rate.value, tags.value, pid.value))
  }

  function ProblemBasicFields(p: ProblemBasic): map<string, Json> {
    map[
      "id" := JNum(p.id), "name" := JStr(p.name), "link" := JStr(p.link),
      "difficulty" := JStr(DifficultyName(p.difficulty)),
      "acceptance_rate" := JStr(p.acceptanceRate),
      "tags" := JArr(TagsJson(p.tags)), "public_id" := JStr(p.publicId)]
  }

  lemma ProblemBasicRoundTrip(p: ProblemBasic)
    ensures ParseProblemBasic(JObj(ProblemBasicFields(p))) == Some(p)
  {
    TagsRoundTrip(p.tags);
    DifficultyValidity(DifficultyName(p.difficulty), p.difficulty);
  }

  function ParseProblemAdvanced(j: Json): Option<ProblemAdvanced> {
    var b, d := ParseProblemBasic(j), Str(j, "description");
    if b.Some? && d.Some? then Some(ProblemAdvanced(b.value, d.value)) else None
  }

  /** A ProblemAdvanced is accepted exactly when the same value is a valid
      ProblemBasic and also carries a string description, and its basic part
      is what the basic schema reads. */
  lemma AdvancedExtendsBasic(j: Json)
    ensures ParseProblemAdvanced(j).Some? <==>
      ParseProblemBasic(j).Some? && Str(j, "description").Some?
    ensures ParseProblemAdvanced(j).Some? ==>
      ParseProblemAdvanced(j).value.basic == ParseProblemBasic(j).value &&
      ParseProblemAdvanced(j).value.description == Str(j, "description").value
  {
  }

  lemma ProblemAdvancedRoundTrip(p: ProblemAdvanced)
    ensures ParseProblemAdvanced(JObj(ProblemBasicFields(p.basic)["description" := JStr(p.description)])) == Some(p)
  {
    var m := ProblemBasicFields(p.basic);
    var m' := m["description" := JStr(p.description)];
    assert m' - {"description"} == m - {"description"};
    ProblemBasicRoundTrip(p.basic);
    assert ParseProblemBasic(JObj(m')) == ParseProblemBasic(JObj(m));
  }

  // ---- filters ----

  function ParseProblemFilters(j: Json): Option<ProblemFilters> {
    var page, limit, ds, ts := Num(j, "page"), Num(j, "limit"), Arr(j, "difficulty"), Arr(j, "tags");
    var sort, first := Str(j, "acceptanceSort"), Bool(j, "firstQuery");
    if page.None? || limit.None? || ds.None? || ts.None? || sort.None? || first.None? then None
    else
      var d, t := ParseStrings(ds.value), ParseStrings(ts.value);
      if d.None? || t.None? then None
      else Some(ProblemFilters(page.value, limit.value, d.value, t.value, sort.value, first.value))
  }

  function ProblemFiltersJson(f: ProblemFilters): Json {
    JObj(map[
      "page" := JNum(f.page), "limit" := JNum(f.limit),
      "difficulty" := JArr(StringsJson(f.difficulty)), "tags" := JArr(StringsJson(f.tags)),
      "acceptanceSort" := JStr(f.acceptanceSort), "firstQuery" := JBool(f.firstQuery)])
  }

  lemma ProblemFiltersRoundTrip(f: ProblemFilters)
    ensures ParseProblemFilters(ProblemFiltersJson(f)) == Some(f)
  {
    StringsRoundTrip(f.difficulty);
    StringsRoundTrip(f.tags);
  }

  /** The filters schema rejects a non-numeric page or limit, a difficulty or
      tag list holding a non-string, a non-string sort and a non-boolean flag. */
  lemma ProblemFiltersShape(j: Json)
    ensures ParseProblemFilters(j).Some? ==>
      j.JObj? && {"page", "limit", "difficulty", "tags", "acceptanceSort", "firstQuery"} <= j.fields.Keys &&
      j.fields["page"].JNum? && j.fields["limit"].JNum? &&
      j.fields["acceptanceSort"].JStr? && j.fields["firstQuery"].JBool? &&
      (forall i :: 0 <= i < |j.fields["difficulty"].items| ==> j.fields["difficulty"].items[i].JStr?) &&
      (forall i :: 0 <= i < |j.fields["tags"].items| ==> j.fields["tags"].items[i].JStr?)
  {
  }

  // ---- solutions and requests ----

  function ParseSolution(j: Json): Option<Solution> {
    var l, c, t, s := Str(j, "language"), Str(j, "code"), Str(j, "timeComplexity"), Str(j, "spaceComplexity");
    if l.None? || c.None? || t.None? || s.None? then None
    else Some(Solution(l.value, c.value, t.value, s.value))
  }

  function SolutionJson(s: Solution): Json {
    JObj(map["language" := JStr(s.language), "code" := JStr(s.code),
             "timeComplexity" := JStr(s.timeComplexity), "spaceComplexity" := JStr(s.spaceComplexity)])
  }

  lemma SolutionRoundTrip(s: Solution)
    ensures ParseSolution(SolutionJson(s)) == Some(s)
  {
  }

  /** z.record(z.string(), SolutionSchema): every value must be a solution;
      the keys are kept. */
  function ParseSolutionRecord(m: map<string, Json>): (r: Option<map<string, Solution>>)
    ensures r.Some? <==> forall k :: k in m ==> ParseSolution(m[k]).Some?
    ensures r.Some? ==>
      r.value.Keys == m.Keys && forall k :: k in m ==> Some(r.value[k]) == ParseSolution(m[k])
  {
    if forall k :: k in m ==> ParseSolution(m[k]).Some?
    then Some(map k | k in m :: ParseSolution(m[k]).value)
    else None
  }

  function ParseChatEntry(j: Json): Option<ChatEntry> {
    var q, a, m := Str(j, "question"), Str(j, "answer"), Str(j, "model");
    if q.None? || a.None? || m.None? || ParseModel(m.value).None? then None
    else Some(ChatEntry(q.value, a.value, ParseModel(m.value).value))
  }

  /** The chat array: every element must be a chat entry. */
  function ParseChat(items: seq<Json>): (r: Option<seq<ChatEntry>>)
    ensures r.Some? <==> forall i :: 0 <= i < |items| ==> ParseChatEntry(items[i]).Some?
    ensures r.Some? ==>
      |r.value| == |items| && forall i :: 0 <= i < |items| ==> ParseChatEntry(items[i]) == Some(r.value[i])
  {
    if items == [] then Some([])
    else
      var e, rest := ParseChatEntry(items[0]), ParseChat(items[1..]);
      if e.Some? && rest.Some? then Some([e.value] + rest.value) else None
  }

  function ChatEntryJson(e: ChatEntry): Json {
    JObj(map["question" := JStr(e.question), "answer" := JStr(e.answer), "model" := JStr(ModelName(e.model))])
  }

  function ChatJson(es: seq<ChatEntry>): seq<Json> {
    if es == [] then [] else [ChatEntryJson(es[0])] + ChatJson(es[1..])
  }

  /** A chat round-trips through JSON, entry by entry and in order. */
  lemma {:induction false} ChatRoundTrip(es: seq<ChatEntry>)
    ensures ParseChat(ChatJson(es)) == Some(es)
  {
    if es != [] {
      ChatRoundTrip(es[1..]);
      var j := ChatJson(es);
      assert j[0] == ChatEntryJson(es[0]) && j[1..] == ChatJson(es[1..]);
      ModelValidity(ModelName(es[0].model), es[0].model);
      assert ParseChatEntry(j[0]) == Some(es[0]);
      assert [es[0]] + es[1..] == es;
    }
  }

  function ParseQuestionDetail(j: Json): Option<QuestionDetail> {
    if !j.JObj? || "problem" !in j.fields || "solution" !in j.fields || !j.fields["solution"].JObj? then None
    else
      var m, p, c := Str(j, "model"), ParseProblemAdvanced(j.fields["problem"]), Arr(j, "chat");
      var sol := ParseSolutionRecord(j.fields["solution"].fields);
      if m.None? || p.None? || c.None? || sol.None? then None
      else
        var model, chat := ParseModel(m.value), ParseChat(c.value);
        if model.None? || chat.None? then None
        else Some(QuestionDetail(model.value, p.value, chat.value, sol.value))
  }

  /** A question detail's solution map has exactly the keys of the JSON
      record, each holding the solution that key's value describes. */
  lemma QuestionDetailSolutionKeys(j: Json)
    requires ParseQuestionDetail(j).Some?
    ensures ParseQuestionDetail(j).value.solution.Keys == j.fields["solution"].fields.Keys
    ensures forall k :: k in j.fields["solution"].fields ==>
      Some(ParseQuestionDetail(j).value.solution[k]) == ParseSolution(j.fields["solution"].fields[k])
  {
  }

  function ParseSolutionRequest(j: Json): Option<SolutionRequest> {
    var m, id, lang, ctx := Str(j, "model"), Num(j, "problemId"), Str(j, "progLang"), Str(j, "additionalContext");
    if m.None? || id.None? || lang.None? || ctx.None? || ParseModel(m.value).None? then None
    else Some(SolutionRequest(ParseModel(m.value).value, id.value, lang.value, ctx.value))
  }

  function SolutionRequestJson(r: SolutionRequest): Json {
    JObj(map["model" := JStr(ModelName(r.model)), "problemId" := JNum(r.problemId),
             "progLang" := JStr(r.progLang), "additionalContext" := JStr(r.additionalContext)])
  }

  /** The request round-trips, and a request whose problem id is a string is refused. */
  lemma SolutionRequestRoundTrip(r: SolutionRequest, s: string)
    ensures ParseSolutionRequest(SolutionRequestJson(r)) == Some(r)
    ensures var j := SolutionRequestJson(r);
      ParseSolutionRequest(JObj(j.fields["problemId" := JStr(s)])) == None
  {
    ModelValidity(ModelName(r.model), r.model);
  }
}
