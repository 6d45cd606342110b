/** The pasted-content chips (client/src/components/llm/PastedContent.tsx):
    the one-line preview `truncateText` and the list of chips. */
module PastedContent {
  import opened Wrappers
  import opened Text
  import opened ChatInputSlice

  /** The chips pass 40 for `maxLength`, so its default is never used. */
  const ChipMaxLength := 40

  /** `text.split("\n")[0].trim()`. */
  function FirstLine(text: string): (line: string)
    ensures NoChar(line, '\n')
  {
    var first := Split(text, '\n')[0];
    var line := Trim(first);
    assert forall i :: 0 <= i < |line| ==> line[i] in first;
    line
  }

  /** `substring(0, n)`, a negative end counting as 0. */
  function Prefix(s: string, n: int): (r: string)
    ensures |r| <= |s| && r == s[..|r|]
    ensures 0 <= n <= |s| ==> |r| == n
  {
    if n <= 0 then [] else if n >= |s| then s else s[..n]
  }

  /** The marker after a cut preview. */
  const Dots := "..."

  lemma DotsAreOneLine()
    ensures NoChar(Dots, '\n') && |Dots| == 3
  {
  }

  /** truncateText: the trimmed first line when it fits, otherwise its
      first `maxLength` characters followed by "...". */
  function TruncateText(text: string, maxLength: int): (r: string)
    ensures NoChar(r, '\n')
    ensures |FirstLine(text)| <= maxLength ==> r == FirstLine(text)
    ensures |FirstLine(text)| > maxLength ==>
      r == Prefix(FirstLine(text), maxLength) + Dots &&
      (maxLength >= 0 ==> |r| == maxLength + 3)
  {
    var line := FirstLine(text);
    if |line| <= maxLength then line
    else
      var p := Prefix(line, maxLength);
      DotsAreOneLine();
      EllipsisAppended(line, p, Dots);
      p + Dots
  }

  /** A prefix of a line followed by dots is still one line. */
  lemma EllipsisAppended(line: string, p: string, dots: string)
    requires NoChar(line, '\n') && |p| <= |line| && p == line[..|p|]
    requires NoChar(dots, '\n')
    ensures NoChar(p + dots, '\n')
  {
    assert forall i :: 0 <= i < |p| ==> p[i] == line[i];
    assert forall i :: |p| <= i < |p + dots| ==> (p + dots)[i] == dots[i - |p|];
  }

  /** Truncating an already truncated preview changes nothing. */
  lemma TruncateIdempotent(text: string, maxLength: int)
    ensures TruncateText(TruncateText(text, maxLength), maxLength) == TruncateText(text, maxLength)
  {
    var line := FirstLine(text);
    var r := TruncateText(text, maxLength);
    SplitNoSeparator(r, '\n');
    if |line| <= maxLength {
      assert line == [] || (!IsSpace(line[0]) && !IsSpace(line[|line| - 1]));
      TrimOfTrimmed(line);
    } else {
      var p := Prefix(line, maxLength);
      assert r == p + Dots;
      assert r[|r| - 1] == '.';
      assert p != [] ==> p[0] == line[0];
      assert r[0] == if p == [] then '.' else line[0];
      TrimOfTrimmed(r);
      assert FirstLine(r) == r;
      assert Prefix(r, maxLength) == p;
    }
  }

  /** The previews depend on the text only through its trimmed first line. */
  lemma TruncateByFirstLine(a: string, b: string, maxLength: int)
    requires FirstLine(a) == FirstLine(b)
    ensures TruncateText(a, maxLength) == TruncateText(b, maxLength)
  {
  }

  /** The chips: nothing at all without pasted contents, otherwise one chip
      per item, in order, labelled with its 40-character preview. */
  function Chips(contents: seq<Content>): (r: Option<seq<(string, string)>>)
    ensures r.None? <==> contents == []
    ensures r.Some? ==>
      |r.value| == |contents| &&
      (forall i :: 0 <= i < |contents| ==>
        r.value[i] == (contents[i].id, TruncateText(contents[i].content, ChipMaxLength)))
  {
    if contents == [] then None
    else Some(seq(|contents|, i requires 0 <= i < |contents| =>
      (contents[i].id, TruncateText(contents[i].content, ChipMaxLength))))
  }
}
