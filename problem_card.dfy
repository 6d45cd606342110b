/** One row of the problem table (client/src/components/leetcode/table/ProblemCard.tsx):
    its number, the tags it shows, the colours of its difficulty badge and
    the page it opens. */
module ProblemCard {
  import opened Text
  import opened Types
  import Slugs
  import Pagination
  import LeetcodeRoute

  /** The number shown for the row at `index` of the current page. */
  function RowNumber(currentPage: int, pageSize: int, index: int): int {
    (currentPage - 1) * pageSize + index + 1
  }

  /** The rows of a page are numbered consecutively from the first number of
      the "Showing" caption to its last, and the numbering carries on from
      one page to the next. */
  lemma RowNumbersMatchCaption(currentPage: int, pageSize: int, problemCnt: int)
    requires pageSize > 0 && currentPage >= 1 && (currentPage - 1) * pageSize < problemCnt
    ensures var range := Pagination.ShowingRange(currentPage, pageSize, problemCnt);
      var rows := Pagination.Min(pageSize, problemCnt - (currentPage - 1) * pageSize);
      RowNumber(currentPage, pageSize, 0) == range.0 &&
      RowNumber(currentPage, pageSize, rows - 1) == range.1
    ensures RowNumber(currentPage, pageSize, pageSize - 1) + 1 == RowNumber(currentPage + 1, pageSize, 0)
  {
  }

  /** `tags.slice(0, 2)`. */
  function VisibleTags(tags: seq<Tag>): (r: seq<Tag>)
    ensures |r| <= 2 && |r| <= |tags| && r == tags[..|r|]
    ensures |tags| <= 2 ==> r == tags
  {
    if |tags| <= 2 then tags else tags[..2]
  }

  /** The "+n" badge: present only past two tags, counting the hidden ones. */
  function OverflowBadge(tags: seq<Tag>): (r: int)
    requires |tags| > 2
  {
    |tags| - 2
  }

  /** Every tag is either shown or counted by the badge, and the badge shows
      exactly when some tag is hidden. */
  lemma TagsAccountedFor(tags: seq<Tag>)
    ensures |VisibleTags(tags)| < |tags| <==> |tags| > 2
    ensures |tags| > 2 ==> |VisibleTags(tags)| + OverflowBadge(tags) == |tags|
    ensures VisibleTags(tags) + tags[|VisibleTags(tags)|..] == tags
  {
  }

  /** The badge classes. */
  datatype Style = Style(bg: string, text: string, border: string)

  const GreenStyle := Style("bg-green-500/10", "text-green-300", "border-green-500/20")
  const YellowStyle := Style("bg-yellow-500/10", "text-yellow-300", "border-yellow-500/20")
  const RedStyle := Style("bg-red-500/10", "text-red-300", "border-red-500/20")
  const ZincStyle := Style("bg-zinc-600/10", "text-zinc-300", "border-zinc-600/20")

  /** getDifficultyStyle, on the difficulty string as it arrives. */
  function DifficultyStyle(difficulty: string): Style {
    if difficulty == "Easy" then GreenStyle
    else if difficulty == "Medium" then YellowStyle
    else if difficulty == "Hard" then RedStyle
    else ZincStyle
  }

  /** The badge is zinc exactly for a string that is not a difficulty; each
      difficulty has its own colour: Easy green, Medium yellow, Hard red. */
  lemma StylePerDifficulty(s: string, d: Difficulty)
    ensures DifficultyStyle(s) == ZincStyle <==> ParseDifficulty(s).None?
    ensures DifficultyStyle(DifficultyName(d)) ==
      match d
      case Easy => GreenStyle
      case Medium => YellowStyle
      case Hard => RedStyle
  {
  }

  /** handleClick's destination, `/leetcode/<slug of the public id>`. */
  function NavigationPath(publicId: string): (path: string)
    ensures StartsWith(path, "/leetcode/")
  {
    "/leetcode/" + Slugs.QuestionName(publicId)
  }

  /** The problems page reads the slug of the public id back from the path,
      for a public id without "/". */
  lemma NavigationNamesRow(publicId: string)
    requires NoChar(publicId, '/')
    ensures LeetcodeRoute.ProblemName(NavigationPath(publicId)) == Slugs.QuestionName(publicId)
  {
    assert NoChar(Slugs.QuestionName(publicId), '/');
    LeetcodeRoute.PathNamesProblem(Slugs.QuestionName(publicId));
  }
}
