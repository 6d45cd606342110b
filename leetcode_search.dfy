/** The search panel's filter selection
    (client/src/components/leetcode/search/LeetCodeSearch.tsx): difficulty
    and tag toggles, clearing, and the popular-tag shortcuts. */
module LeetCodeSearch {
  import opened Types
  import opened Seqs

  datatype AcceptanceRange = AcceptanceRange(min: int, max: int)

  /** The `SearchFilters` state of the panel. */
  datatype SelectedFilters = SelectedFilters(
    difficulties: seq<Difficulty>, tags: seq<string>, acceptanceRate: AcceptanceRange)

  const InitialFilters := SelectedFilters([], [], AcceptanceRange(0, 100))

  /** The toggle updater: drop every copy if present, otherwise append. */
  function Toggle<T(==)>(prev: seq<T>, x: T): seq<T> {
    if x in prev then Remove(prev, x) else prev + [x]
  }

  /** A toggle flips membership of the value, keeps every other value, and
      never introduces a duplicate into a duplicate-free list. */
  lemma ToggleFlips<T>(prev: seq<T>, x: T)
    requires NoDuplicates(prev)
    ensures NoDuplicates(Toggle(prev, x))
    ensures x in Toggle(prev, x) <==> x !in prev
    ensures forall i :: 0 <= i < |prev| && prev[i] != x ==> prev[i] in Toggle(prev, x)
    ensures forall i :: 0 <= i < |Toggle(prev, x)| && Toggle(prev, x)[i] != x ==> Toggle(prev, x)[i] in prev
  {
    if x in prev {
      RemoveNoDuplicates(prev, x);
    } else {
      AppendNoDuplicates(prev, x);
      var t := prev + [x];
      forall i | 0 <= i < |t| && t[i] != x
        ensures t[i] in prev
      {
        assert t[i] == prev[i];
      }
    }
  }

  /** Toggling an absent value twice restores the list. */
  lemma ToggleTwiceAbsent<T>(prev: seq<T>, x: T)
    requires x !in prev
    ensures Toggle(Toggle(prev, x), x) == prev
  {
    RemoveConcat(prev, [x], x);
    RemoveAbsent(prev, x);
    assert Remove([x], x) == [];
  }

  /** handleDifficultyChange. */
  function ToggleDifficulty(f: SelectedFilters, d: Difficulty): (r: SelectedFilters)
    ensures r.tags == f.tags && r.acceptanceRate == f.acceptanceRate
    ensures d in r.difficulties <==> d !in f.difficulties
  {
    var r := f.(difficulties := Toggle(f.difficulties, d));
    assert d !in f.difficulties ==> r.difficulties[|f.difficulties|] == d;
    r
  }

  /** handleTagChange. */
  function ToggleTag(f: SelectedFilters, t: string): (r: SelectedFilters)
    ensures r.difficulties == f.difficulties && r.acceptanceRate == f.acceptanceRate
    ensures t in r.tags <==> t !in f.tags
  {
    var r := f.(tags := Toggle(f.tags, t));
    assert t !in f.tags ==> r.tags[|f.tags|] == t;
    r
  }

  /** The clear button is shown when any difficulty or tag is selected. */
  predicate ShowClear(f: SelectedFilters) {
    |f.difficulties| > 0 || |f.tags| > 0
  }

  /** The first five available tags (all of them when fewer). */
  function PopularTags(availableTags: seq<string>): (r: seq<string>)
    ensures |r| == if |availableTags| < 5 then |availableTags| else 5
    ensures r == availableTags[..|r|]
  {
    if |availableTags| <= 5 then availableTags else availableTags[..5]
  }

  /** The panel's filter state. */
  class SearchPanel {
    var selectedFilters: SelectedFilters
    var availableTags: seq<string>

    ghost predicate Valid()
      reads this
    {
      NoDuplicates(selectedFilters.difficulties) && NoDuplicates(selectedFilters.tags)
    }

    constructor ()
      ensures Valid() && selectedFilters == InitialFilters && availableTags == []
    {
      selectedFilters := InitialFilters;
      availableTags := [];
    }

    /** The tag fetch on mount: the tag names, in order. */
    method TagsLoaded(tags: seq<Tag>)
      requires Valid()
      modifies this
      ensures Valid() && selectedFilters == old(selectedFilters)
      ensures |availableTags| == |tags| && forall i :: 0 <= i < |tags| ==> availableTags[i] == tags[i].name
    {
      availableTags := seq(|tags|, i requires 0 <= i < |tags| => tags[i].name);
    }

    method DifficultyChange(d: Difficulty)
      requires Valid()
      modifies this
      ensures Valid() && selectedFilters == ToggleDifficulty(old(selectedFilters), d)
      ensures availableTags == old(availableTags)
    {
      ToggleFlips(selectedFilters.difficulties, d);
      selectedFilters := ToggleDifficulty(selectedFilters, d);
    }

    method TagChange(t: string)
      requires Valid()
      modifies this
      ensures Valid() && selectedFilters == ToggleTag(old(selectedFilters), t)
      ensures availableTags == old(availableTags)
    {
      ToggleFlips(selectedFilters.tags, t);
      selectedFilters := ToggleTag(selectedFilters, t);
    }

    method ClearFilters()
      modifies this
      ensures Valid() && selectedFilters == InitialFilters && !ShowClear(selectedFilters)
      ensures availableTags == old(availableTags)
    {
      selectedFilters := SelectedFilters([], [], AcceptanceRange(0, 100));
    }
  }
}
