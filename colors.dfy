/** The colour helpers of the code analyzer
    (client/src/components/leetcode/analyzer/colors.ts). */
module Colors {

  /** The four score bands, lowest first. */
  datatype Band = Red | Yellow | Blue | Green

  function BandClass(b: Band): string {
    match b
    case Green => "text-green-400"
    case Blue => "text-blue-400"
    case Yellow => "text-yellow-400"
    case Red => "text-red-400"
  }

  function BandOf(score: int): Band {
    if score >= 90 then Green
    else if score >= 70 then Blue
    else if score >= 50 then Yellow
    else Red
  }

  /** getScoreColor. */
  function ScoreColor(score: int): string {
    BandClass(BandOf(score))
  }

  function Level(b: Band): nat {
    match b
    case Red => 0
    case Yellow => 1
    case Blue => 2
    case Green => 3
  }

  /** The bands are [90, ∞), [70, 90), [50, 70) and below 50, and a higher
      score never lands in a lower band. */
  lemma ScoreBands(score: int, other: int)
    ensures ScoreColor(score) == "text-green-400" <==> score >= 90
    ensures ScoreColor(score) == "text-blue-400" <==> 70 <= score < 90
    ensures ScoreColor(score) == "text-yellow-400" <==> 50 <= score < 70
    ensures ScoreColor(score) == "text-red-400" <==> score < 50
    ensures score <= other ==> Level(BandOf(score)) <= Level(BandOf(other))
  {
  }

  const DefaultComplexityClass := "bg-zinc-800 text-zinc-400"

  /** getComplexityColor: exact matches only. */
  function ComplexityColor(complexity: string): string {
    if complexity == "O(1)" then "bg-green-500/20 text-green-400"
    else if complexity == "O(n)" then "bg-yellow-500/20 text-yellow-400"
    else if complexity == "O(n^2)" then "bg-red-500/20 text-red-400"
    else DefaultComplexityClass
  }

  /** Only the three exact strings get a colour; any other spelling, such as
      "O(logn)" or "O(N)", gets the default. */
  lemma ComplexityExactMatch(complexity: string)
    ensures ComplexityColor(complexity) != DefaultComplexityClass <==>
      complexity in {"O(1)", "O(n)", "O(n^2)"}
    ensures ComplexityColor("O(logn)") == DefaultComplexityClass
    ensures ComplexityColor("O(N)") == DefaultComplexityClass
  {
  }
}
