/** Solution generation on the server (server/src/solution/solve.py): the
    request and reply records, the variables the prompt is filled with, the
    cleanup of the model's reply before it is parsed, and the mapping of
    failures to `ValueError` messages. The database lookup, the language
    model and JSON decoding are foreign and enter as parameters. */
module Solve {
  import opened Wrappers
  import opened Text
  import opened Types
  import Api

  /** `problem_id: str | int`. */
  datatype ProblemId = IdStr(s: string) | IdInt(n: int)

  /** The id as an f-string renders it. */
  function IdText(id: ProblemId): string {
    match id
    case IdStr(s) => s
    case IdInt(n) => IntToString(n)
  }

  /** `SolutionConfig`. */
  datatype SolutionConfig = SolutionConfig(
    progLang: string, model: string, problemId: ProblemId, additionalContext: Option<string>)

  /** Validation of a request body: the two strings and the id are required,
      the context may be absent or null; other keys are ignored. */
  function ParseSolutionConfig(j: Json): (r: Option<SolutionConfig>)
    ensures r.Some? ==> (j.JObj? && "problem_id" in j.fields &&
      Str(j, "prog_lang") == Some(r.value.progLang) && Str(j, "model") == Some(r.value.model))
    ensures r.Some? && r.value.additionalContext.Some? ==>
      "additional_context" in j.fields && j.fields["additional_context"] == JStr(r.value.additionalContext.value)
  {
    if !j.JObj? || "problem_id" !in j.fields then None
    else
      var lang, model, id := Str(j, "prog_lang"), Str(j, "model"), j.fields["problem_id"];
      var ctx: Option<Option<string>> :=
        if "additional_context" !in j.fields || j.fields["additional_context"].JNull? then Some(None)
        else if j.fields["additional_context"].JStr? then Some(Some(j.fields["additional_context"].s))
        else None;
      if lang.None? || model.None? || ctx.None? || !(id.JStr? || id.JNum?) then None
      else Some(SolutionConfig(lang.value, model.value,
                               if id.JStr? then IdStr(id.s) else IdInt(id.n), ctx.value))
  }

  /** The body the client posts is accepted as the request it was built
      from: the model's name, the numeric id, the language and the context;
      without "prog_lang" it is refused. */
  lemma ClientBodyAccepted(r: SolutionRequest)
    ensures ParseSolutionConfig(Api.SolutionBody(r)) ==
      Some(SolutionConfig(r.progLang, ModelName(r.model), IdInt(r.problemId), Some(r.additionalContext)))
    ensures ParseSolutionConfig(JObj(Api.SolutionBody(r).fields - {"prog_lang"})) == None
  {
  }

  /** `SolutionResponse`. */
  datatype SolutionResponse = SolutionResponse(code: string, timeComplexity: string, spaceComplexity: string)

  function ParseSolutionResponse(j: Json): Option<SolutionResponse> {
    var c, t, s := Str(j, "code"), Str(j, "time_complexity"), Str(j, "space_complexity");
    if c.None? || t.None? || s.None? then None else Some(SolutionResponse(c.value, t.value, s.value))
  }

  function SolutionResponseJson(r: SolutionResponse): Json {
    JObj(map["code" := JStr(r.code), "time_complexity" := JStr(r.timeComplexity),
             "space_complexity" := JStr(r.spaceComplexity)])
  }

  /** A reply round-trips; each of the three string fields is required; and
      the reply's snake_case keys do not satisfy the client's camelCase
      solution schema. */
  lemma SolutionResponseFields(r: SolutionResponse, key: string)
    requires key in {"code", "time_complexity", "space_complexity"}
    ensures ParseSolutionResponse(SolutionResponseJson(r)) == Some(r)
    ensures ParseSolutionResponse(JObj(SolutionResponseJson(r).fields - {key})) == None
    ensures ParseSolutionResponse(JObj(SolutionResponseJson(r).fields[key := JNull])) == None
    ensures ParseSolution(SolutionResponseJson(r)) == None
  {
  }

  /** The variables the prompt template is filled with; a missing or empty
      context becomes "". */
  function PromptVariables(config: SolutionConfig, title: string, description: string, tags: string): (vars: map<string, string>)
    ensures vars.Keys == {"prog_lang", "title", "description", "tags", "context"}
    ensures vars["context"] == (if config.additionalContext.Some? then config.additionalContext.value else "")
    ensures vars["prog_lang"] == config.progLang && vars["title"] == title
  {
    map["prog_lang" := config.progLang, "title" := title, "description" := description,
        "tags" := tags, "context" := OrElse(config.additionalContext, "")]
  }

  // ---- cleanup of the reply ----

  function DropPrefix(s: string, p: string): (r: string)
    ensures StartsWith(s, p) ==> s == p + r
    ensures !StartsWith(s, p) ==> r == s
  {
    if StartsWith(s, p) then s[|p|..] else s
  }

  function DropSuffix(s: string, p: string): (r: string)
    ensures EndsWith(s, p) ==> s == r + p
    ensures !EndsWith(s, p) ==> r == s
  {
    if EndsWith(s, p) then s[..|s| - |p|] else s
  }

  const JsonFence := "```json"
  const Fence := "```"

  /** The cleaned reply: stripped, one leading "```json" and then one
      leading "```" dropped if present, one trailing "```" dropped if
      present, stripped again. */
  function Cleanup(reply: string): (r: string)
    ensures |r| <= |reply|
  {
    CleanupTrimmed(reply, JsonFence, Fence);
    CleanupWith(reply, JsonFence, Fence)
  }

  /** The same steps with the two fences as parameters. */
  function CleanupWith(reply: string, jsonFence: string, fence: string): string {
    Trim(DropSuffix(DropPrefix(DropPrefix(Trim(reply), jsonFence), fence), fence))
  }

  /** The cleanup only removes characters, and its result is stripped. */
  lemma CleanupTrimmed(reply: string, jsonFence: string, fence: string)
    ensures |CleanupWith(reply, jsonFence, fence)| <= |reply|
    ensures Trim(CleanupWith(reply, jsonFence, fence)) == CleanupWith(reply, jsonFence, fence)
  {
    var a := DropPrefix(Trim(reply), jsonFence);
    var b := DropPrefix(a, fence);
    var c := DropSuffix(b, fence);
    assert |c| <= |b| <= |a| <= |Trim(reply)| <= |reply|;
    TrimIdempotent(c);
  }

  /** The cleanup as the code performs it, reassigning one variable. */
  method CleanReply(reply: string) returns (cleaned: string)
    ensures cleaned == Cleanup(reply)
  {
    cleaned := Trim(reply);
    if StartsWith(cleaned, JsonFence) {
      cleaned := cleaned[7..];
    }
    if StartsWith(cleaned, Fence) {
      cleaned := cleaned[3..];
    }
    if EndsWith(cleaned, Fence) {
      cleaned := cleaned[..|cleaned| - 3];
    }
    cleaned := Trim(cleaned);
  }

  /** What the proofs use of the two fences. */
  predicate FenceShape(jsonFence: string, fence: string) {
    |fence| == 3 && |jsonFence| == 7 && jsonFence[..3] == fence &&
    fence[0] == '`' && fence[2] == '`' && jsonFence[3] == 'j'
  }

  lemma FencesHaveShape()
    ensures FenceShape(JsonFence, Fence)
    ensures JsonFence[3..] == "json"
  {
  }

  /** A reply without fences is only stripped. */
  lemma UnfencedReply(reply: string)
    requires !StartsWith(Trim(reply), Fence) && !EndsWith(Trim(reply), Fence)
    ensures Cleanup(reply) == Trim(reply)
  {
    FencesHaveShape();
    UnfencedWith(reply, JsonFence, Fence);
  }

  lemma UnfencedWith(reply: string, jsonFence: string, fence: string)
    requires FenceShape(jsonFence, fence)
    requires !StartsWith(Trim(reply), fence) && !EndsWith(Trim(reply), fence)
    ensures CleanupWith(reply, jsonFence, fence) == Trim(reply)
  {
    var t := Trim(reply);
    NotPrefixOfLonger(t, jsonFence, fence);
    assert DropPrefix(t, jsonFence) == t;
    assert DropPrefix(t, fence) == t;
    assert DropSuffix(t, fence) == t;
    TrimIdempotent(reply);
  }

  predicate Blank(s: string) {
    forall i :: 0 <= i < |s| ==> IsSpace(s[i])
  }

  /** A string that does not start with `short` does not start with any
      `long` that starts with `short`. */
  lemma NotPrefixOfLonger(s: string, long: string, short: string)
    requires |short| <= |long| && long[..|short|] == short && !StartsWith(s, short)
    ensures !StartsWith(s, long)
  {
    if |long| <= |s| {
      assert s[..|long|][..|short|] == s[..|short|];
    }
  }

  lemma DropPrefixConcat(a: string, b: string)
    ensures DropPrefix(a + b, a) == b
  {
    assert (a + b)[..|a|] == a;
  }

  lemma DropPrefixMismatch(s: string, p: string, k: int)
    requires 0 <= k < |p| && k < |s| && s[k] != p[k]
    ensures DropPrefix(s, p) == s
  {
  }

  lemma DropSuffixConcat(a: string, b: string)
    ensures DropSuffix(a + b, b) == a
  {
    assert (a + b)[|a|..] == b;
  }

  lemma DropSuffixMismatch(s: string, p: string)
    requires |s| >= 1 && |p| >= 1 && s[|s| - 1] != p[|p| - 1]
    ensures DropSuffix(s, p) == s
  {
  }

  /** A JSON object wrapped in a "```json" or a bare "```" fence, with any
      whitespace around and inside the fences, comes out as the object. */
  lemma FencedReply(body: string, w1: string, p: string, q: string, w2: string)
    requires |body| >= 2 && body[0] == '{' && body[|body| - 1] == '}'
    requires Blank(w1) && Blank(p) && Blank(q) && Blank(w2)
    ensures Cleanup(w1 + JsonFence + p + body + q + Fence + w2) == body
    ensures Cleanup(w1 + Fence + p + body + q + Fence + w2) == body
  {
    FencesHaveShape();
    FencedReplyWith(body, w1, p, q, w2, JsonFence, Fence);
  }

  lemma FencedReplyWith(body: string, w1: string, p: string, q: string, w2: string,
                        jsonFence: string, fence: string)
    requires FenceShape(jsonFence, fence)
    requires |body| >= 2 && body[0] == '{' && body[|body| - 1] == '}'
    requires Blank(w1) && Blank(p) && Blank(q) && Blank(w2)
    ensures CleanupWith(w1 + jsonFence + p + body + q + fence + w2, jsonFence, fence) == body
    ensures CleanupWith(w1 + fence + p + body + q + fence + w2, jsonFence, fence) == body
  {
    FencedOnce(body, w1, p, q, w2, jsonFence, fence, jsonFence);
    FencedOnce(body, w1, p, q, w2, jsonFence, fence, fence);
  }

  lemma FencedOnce(body: string, w1: string, p: string, q: string, w2: string,
                   jsonFence: string, fence: string, open: string)
    requires FenceShape(jsonFence, fence)
    requires |body| >= 2 && body[0] == '{' && body[|body| - 1] == '}'
    requires Blank(w1) && Blank(p) && Blank(q) && Blank(w2)
    requires open == jsonFence || open == fence
    ensures CleanupWith(w1 + open + p + body + q + fence + w2, jsonFence, fence) == body
  {
    var inner := p + body + q;
    BlankPaddedStart(p, body, q);
    TrimPadded(p, body, q);
    FencedWith(inner, w1, w2, jsonFence, fence, open);
    Regroup(w1, open, p, body, q, fence, w2);
  }

  /** A body that starts with "{" keeps that start behind blank padding. */
  lemma BlankPaddedStart(p: string, body: string, q: string)
    requires Blank(p) && |body| >= 1 && body[0] == '{'
    ensures var inner := p + body + q; |inner| >= 1 && inner[0] != '`' && inner[0] != 'j'
  {
    if |p| > 0 {
      assert (p + body + q)[0] == p[0];
    } else {
      assert (p + body + q)[0] == body[0];
    }
  }

  lemma Regroup(w1: string, open: string, p: string, body: string, q: string, fence: string, w2: string)
    ensures w1 + open + p + body + q + fence + w2 == w1 + (open + (p + body + q) + fence) + w2
  {
  }

  lemma FencedWith(inner: string, w1: string, w2: string, jsonFence: string, fence: string, open: string)
    requires FenceShape(jsonFence, fence)
    requires |inner| >= 1 && inner[0] != '`' && inner[0] != 'j'
    requires Blank(w1) && Blank(w2)
    requires open == jsonFence || open == fence
    ensures CleanupWith(w1 + (open + inner + fence) + w2, jsonFence, fence) == Trim(inner)
  {
    var fenced := open + inner + fence;
    assert fenced[0] == open[0] && fenced[|fenced| - 1] == fence[2];
    TrimPadded(w1, fenced, w2);
    if open == jsonFence {
      JsonOpeningDropped(inner, jsonFence, fence);
    } else {
      BareOpeningDropped(inner, jsonFence, fence);
    }
    DropSuffixConcat(inner, fence);
  }

  /** After a "```json" opening only the "```json" is dropped. */
  lemma JsonOpeningDropped(inner: string, jsonFence: string, fence: string)
    requires FenceShape(jsonFence, fence)
    requires |inner| >= 1 && inner[0] != '`'
    ensures DropPrefix(DropPrefix(jsonFence + inner + fence, jsonFence), fence) == inner + fence
  {
    var tail := inner + fence;
    assert jsonFence + inner + fence == jsonFence + tail;
    DropPrefixConcat(jsonFence, tail);
    DropPrefixMismatch(tail, fence, 0);
  }

  /** After a bare "```" opening only the "```" is dropped. */
  lemma BareOpeningDropped(inner: string, jsonFence: string, fence: string)
    requires FenceShape(jsonFence, fence)
    requires |inner| >= 1 && inner[0] != 'j'
    ensures DropPrefix(DropPrefix(fence + inner + fence, jsonFence), fence) == inner + fence
  {
    var tail := inner + fence;
    var fenced := fence + tail;
    assert fence + inner + fence == fenced;
    assert fenced[3] == inner[0];
    DropPrefixMismatch(fenced, jsonFence, 3);
    DropPrefixConcat(fence, tail);
  }

  /** Each fence is dropped at most once: a doubled opening fence leaves
      "json" in front, a doubled closing fence leaves one "```" behind. */
  lemma FenceDroppedOnce(body: string)
    requires |body| >= 2 && body[0] == '{' && body[|body| - 1] == '}'
    ensures Cleanup(JsonFence + JsonFence + body) == "json" + body
    ensures Cleanup(body + Fence + Fence) == body + Fence
  {
    FencesHaveShape();
    DoubledOpening(body, JsonFence, Fence);
    DoubledClosing(body, JsonFence, Fence);
  }

  lemma DoubledOpening(body: string, jsonFence: string, fence: string)
    requires FenceShape(jsonFence, fence)
    requires |body| >= 2 && body[0] == '{' && body[|body| - 1] == '}'
    ensures CleanupWith(jsonFence + jsonFence + body, jsonFence, fence) == jsonFence[3..] + body
  {
    var rest := jsonFence[3..] + body;
    OpeningDroppedOnce(body, jsonFence, fence);
    WordLeftInFront(body, jsonFence, fence);
    assert DropPrefix(DropPrefix(Trim(jsonFence + jsonFence + body), jsonFence), fence) == rest;
  }

  /** The two prefix steps on a doubled opening fence leave "json" and the body. */
  lemma OpeningDroppedOnce(body: string, jsonFence: string, fence: string)
    requires FenceShape(jsonFence, fence)
    requires |body| >= 2 && body[0] == '{' && body[|body| - 1] == '}'
    ensures DropPrefix(DropPrefix(Trim(jsonFence + jsonFence + body), jsonFence), fence) == jsonFence[3..] + body
  {
    var once := jsonFence + body;
    var a := jsonFence + once;
    assert a == jsonFence + jsonFence + body;
    var rest := jsonFence[3..] + body;
    assert jsonFence == fence + jsonFence[3..];
    assert once == fence + rest;
    assert !IsSpace(a[0]) && !IsSpace(a[|a| - 1]);
    TrimOfTrimmed(a);
    DropPrefixConcat(jsonFence, once);
    DropPrefixConcat(fence, rest);
  }

  /** "json" followed by the body has no closing fence and nothing to strip. */
  lemma WordLeftInFront(body: string, jsonFence: string, fence: string)
    requires FenceShape(jsonFence, fence)
    requires |body| >= 2 && body[0] == '{' && body[|body| - 1] == '}'
    ensures DropSuffix(jsonFence[3..] + body, fence) == jsonFence[3..] + body
    ensures Trim(jsonFence[3..] + body) == jsonFence[3..] + body
  {
    var rest := jsonFence[3..] + body;
    assert rest[0] == 'j';
    assert rest[|rest| - 1] == '}';
    DropSuffixMismatch(rest, fence);
    TrimOfTrimmed(rest);
  }

  lemma DoubledClosing(body: string, jsonFence: string, fence: string)
    requires FenceShape(jsonFence, fence)
    requires |body| >= 2 && body[0] == '{' && body[|body| - 1] == '}'
    ensures CleanupWith(body + fence + fence, jsonFence, fence) == body + fence
  {
    var b2 := body + fence;
    var b := b2 + fence;
    assert !IsSpace(b[0]) && !IsSpace(b[|b| - 1]);
    TrimOfTrimmed(b);
    DropPrefixMismatch(b, jsonFence, 0);
    DropPrefixMismatch(b, fence, 0);
    DropSuffixConcat(b2, fence);
    assert !IsSpace(b2[0]) && !IsSpace(b2[|b2| - 1]);
    TrimOfTrimmed(b2);
  }

  // ---- the outcome of generate_code_solution ----

  /** The model's reply: text, or content of another shape. */
  datatype Reply = TextReply(text: string) | OtherReply(detail: string)

  datatype SolveError = ValueError(message: string)

  const ParseFailurePrefix := "Failed to parse LLM response into expected format: "
  const OtherFailurePrefix := "Error generating solution: "

  /** generate_code_solution once the lookup and the model have answered:
      `problemFound` is the lookup's outcome, `decode` the JSON decoder and
      `detail` the validation error's text. */
  function GenerateOutcome(config: SolutionConfig, problemFound: bool, reply: Reply,
                           decode: string -> Option<Json>, detail: string): (r: Result<SolutionResponse, SolveError>)
    ensures r.Ok? ==> problemFound && reply.TextReply? && decode(Cleanup(reply.text)).Some?
    ensures r.Ok? ==> ParseSolutionResponse(decode(Cleanup(reply.text)).value) == Some(r.value)
  {
    if !problemFound then Err(ValueError("Problem with id " + IdText(config.problemId) + " not found"))
    else match reply
      case OtherReply(d) => Err(ValueError(OtherFailurePrefix + d))
      case TextReply(t) =>
        var j := decode(Cleanup(t));
        var parsed := if j.Some? then ParseSolutionResponse(j.value) else None;
        if parsed.None? then Err(ValueError(ParseFailurePrefix + detail)) else Ok(parsed.value)
  }

  /** A missing problem is reported with its id; a reply that is not text
      is an "Error generating solution"; a text reply succeeds exactly when
      its cleaned form decodes to a valid response, and is otherwise a
      "Failed to parse" error. */
  lemma ErrorMapping(config: SolutionConfig, problemFound: bool, reply: Reply,
                     decode: string -> Option<Json>, detail: string)
    ensures var r := GenerateOutcome(config, problemFound, reply, decode, detail);
      (!problemFound ==> r.Err? && StartsWith(r.error.message, "Problem with id ")) &&
      (problemFound && reply.OtherReply? ==> r == Err(ValueError(OtherFailurePrefix + reply.detail))) &&
      (problemFound && reply.TextReply? ==>
        var j := decode(Cleanup(reply.text));
        (r.Ok? <==> j.Some? && ParseSolutionResponse(j.value).Some?) &&
        (r.Ok? ==> r.value == ParseSolutionResponse(j.value).value) &&
        (r.Err? ==> r.error.message == ParseFailurePrefix + detail))
  {
  }

  /** A reply holding a JSON object in either fence, with any whitespace
      around and inside the fences, yields the response the object decodes to. */
  lemma FencedReplySucceeds(config: SolutionConfig, body: string, response: SolutionResponse,
                            decode: string -> Option<Json>, detail: string,
                            open: string, w1: string, p: string, q: string, w2: string)
    requires |body| >= 2 && body[0] == '{' && body[|body| - 1] == '}'
    requires decode(body) == Some(SolutionResponseJson(response))
    requires open == JsonFence || open == Fence
    requires Blank(w1) && Blank(p) && Blank(q) && Blank(w2)
    ensures GenerateOutcome(config, true, TextReply(w1 + open + p + body + q + Fence + w2), decode, detail) == Ok(response)
  {
    FencedReply(body, w1, p, q, w2);
    SolutionResponseFields(response, "code");
  }
}
