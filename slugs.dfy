/** The conversion between problem names and URL segments
    (client/src/components/leetcode/utils.ts) and the server's decoding of a
    segment back to a name (server/src/problems/handler.py). */
module Slugs {
  import opened Text

  /** parseLeetcodeQuestionName: `name.split(" ").join("_")`, and "" for the
      empty name. It replaces every space by an underscore. */
  function QuestionName(name: string): (r: string)
    ensures |r| == |name|
    ensures forall i :: 0 <= i < |name| ==> r[i] == (if name[i] == ' ' then '_' else name[i])
  {
    if name == "" then ""
    else
      JoinSplitIsReplace(name, ' ', '_');
      Join(Split(name, ' '), "_")
  }

  /** parseLeetcodeQuestionNameToTitle: every underscore becomes a space. */
  function QuestionTitle(name: string): (r: string)
    ensures |r| == |name| && NoChar(r, '_')
  {
    if name == "" then "" else Replace(name, '_', ' ')
  }

  /** The router's `" ".join(problem_name.split("_"))`. */
  function ServerName(segment: string): (r: string)
    ensures r == QuestionTitle(segment)
  {
    JoinSplitIsReplace(segment, '_', ' ');
    Join(Split(segment, '_'), " ")
  }

  /** A name never has a space once converted. */
  lemma QuestionNameHasNoSpace(name: string)
    ensures NoChar(QuestionName(name), ' ')
  {
  }

  /** Name to segment and back is the identity exactly for names without an
      underscore, on the client and on the server alike. */
  lemma NameRoundTrip(name: string)
    ensures QuestionTitle(QuestionName(name)) == name <==> NoChar(name, '_')
    ensures ServerName(QuestionName(name)) == name <==> NoChar(name, '_')
  {
    var back := QuestionTitle(QuestionName(name));
    if NoChar(name, '_') {
      assert back == name;
    } else {
      var i :| 0 <= i < |name| && name[i] == '_';
      assert back[i] == ' ';
    }
  }

  /** Segment to name and back is the identity exactly for segments without
      a space. */
  lemma TitleRoundTrip(segment: string)
    ensures QuestionName(QuestionTitle(segment)) == segment <==> NoChar(segment, ' ')
  {
    var back := QuestionName(QuestionTitle(segment));
    if NoChar(segment, ' ') {
      assert back == segment;
    } else {
      var i :| 0 <= i < |segment| && segment[i] == ' ';
      assert back[i] == '_';
    }
  }
}
