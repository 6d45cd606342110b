/** The problem detail page (client/src/components/leetcode/questions/ProblemDetail.tsx):
    the visualizer's algorithm family chosen from the problem's tags, and
    the guard of the question box. */
module ProblemDetail {
  import opened Wrappers
  import opened Text
  import opened Types
  import V = Visualizer

  /** The tag names, lower-cased. */
  function LowerNames(tags: seq<Tag>): (r: seq<string>)
    ensures |r| == |tags| && forall i :: 0 <= i < |tags| ==> r[i] == ToLower(tags[i].name)
  {
    seq(|tags|, i requires 0 <= i < |tags| => ToLower(tags[i].name))
  }

  /** The `includes` checks of determineAlgorithmType, in order. */
  function AlgorithmTypeOfNames(names: seq<string>): V.AlgorithmType {
    if "linked list" in names then V.LinkedList
    else if "tree" in names || "binary tree" in names then V.Tree
    else if "graph" in names then V.Graph
    else if "hash table" in names || "hashmap" in names then V.HashMap
    else if "stack" in names then V.Stack
    else if "queue" in names then V.Queue
    else if "heap" in names then V.Heap
    else V.ArrayType
  }

  /** determineAlgorithmType: "array" while no problem is loaded, otherwise
      decided by the lower-cased tag names. */
  function DetermineAlgorithmType(info: Option<QuestionDetail>): (t: V.AlgorithmType)
    ensures info.None? ==> t == V.ArrayType
  {
    if info.None? then V.ArrayType
    else AlgorithmTypeOfNames(LowerNames(info.value.problem.basic.tags))
  }

  // ---- a reference description of the choice ----

  /** The lower-case tag names that select each family; "array" has none. */
  function Keywords(t: V.AlgorithmType): seq<string> {
    match t
    case LinkedList => ["linked list"]
    case Tree => ["tree", "binary tree"]
    case Graph => ["graph"]
    case HashMap => ["hash table", "hashmap"]
    case Stack => ["stack"]
    case Queue => ["queue"]
    case Heap => ["heap"]
    case ArrayType => []
  }

  /** The priority of each family, 0 the highest; "array" comes last. */
  function Rank(t: V.AlgorithmType): nat {
    match t
    case LinkedList => 0
    case Tree => 1
    case Graph => 2
    case HashMap => 3
    case Stack => 4
    case Queue => 5
    case Heap => 6
    case ArrayType => 7
  }

  /** Some tag name selects the family. */
  predicate Selects(t: V.AlgorithmType, names: seq<string>) {
    exists i :: 0 <= i < |Keywords(t)| && Keywords(t)[i] in names
  }

  /** The chosen family is the highest-priority one that some tag selects,
      and "array" exactly when no tag selects any family. */
  lemma ChoiceByPriority(names: seq<string>)
    ensures var t := AlgorithmTypeOfNames(names);
      (t != V.ArrayType ==> Selects(t, names)) &&
      (forall u :: Rank(u) < Rank(t) ==> !Selects(u, names))
  {
    var t := AlgorithmTypeOfNames(names);
    if t != V.ArrayType {
      var k := if t == V.Tree && "tree" !in names then 1
               else if t == V.HashMap && "hash table" !in names then 1
               else 0;
      assert Keywords(t)[k] in names;
    }
  }

  /** Tags that differ only in letter case choose the same family. */
  lemma CaseInsensitive(tags1: seq<Tag>, tags2: seq<Tag>)
    requires |tags1| == |tags2|
    requires forall i :: 0 <= i < |tags1| ==> ToLower(tags1[i].name) == ToLower(tags2[i].name)
    ensures AlgorithmTypeOfNames(LowerNames(tags1)) == AlgorithmTypeOfNames(LowerNames(tags2))
  {
    assert LowerNames(tags1) == LowerNames(tags2);
  }

  /** handleSendQuestion, apart from its delay: a blank question is ignored
      and left as it is; any other is sent and the box is cleared. */
  function SendQuestion(question: string): (r: (bool, string))
    ensures r.0 <==> exists i :: 0 <= i < |question| && !IsSpace(question[i])
    ensures r.1 == if r.0 then "" else question
  {
    TrimEmptyIffBlank(question);
    if Trim(question) == "" then (false, question) else (true, "")
  }
}
