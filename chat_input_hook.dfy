/** The pasted-content helpers of the chat-input hook
    (client/src/store/chat-input/hook.ts): each builds a new list and
    dispatches it with `setPastedContents`. The fresh id and the clock
    reading are parameters. */
module ChatInputHook {
  import opened ChatInputSlice

  /** addPastedContent: the existing items, then one new item. */
  function AddPasted(contents: seq<Content>, text: string, freshId: string, now: int): (r: seq<Content>)
    ensures |r| == |contents| + 1 && r[..|contents|] == contents
    ensures r[|contents|] == Content(freshId, text, now)
  {
    contents + [Content(freshId, text, now)]
  }

  /** removePastedContent: `contents.filter(c => c.id !== id)`. */
  function RemovePasted(contents: seq<Content>, id: string): (r: seq<Content>)
    ensures |r| <= |contents|
    ensures forall i :: 0 <= i < |r| ==> r[i].id != id && r[i] in contents
    ensures forall i :: 0 <= i < |contents| && contents[i].id != id ==> contents[i] in r
  {
    if contents == [] then []
    else if contents[0].id == id then RemovePasted(contents[1..], id)
    else [contents[0]] + RemovePasted(contents[1..], id)
  }

  /** clearPastedContents. */
  function ClearPasted(): seq<Content> {
    []
  }

  /** No item carries the id. */
  predicate AbsentId(contents: seq<Content>, id: string) {
    forall i :: 0 <= i < |contents| ==> contents[i].id != id
  }

  /** Removing an id no item carries leaves the list unchanged. */
  lemma {:induction false} RemoveAbsentId(contents: seq<Content>, id: string)
    requires AbsentId(contents, id)
    ensures RemovePasted(contents, id) == contents
  {
    if contents != [] {
      RemoveAbsentId(contents[1..], id);
      assert [contents[0]] + contents[1..] == contents;
    }
  }

  /** Removal distributes over concatenation, so the kept items stay in order. */
  lemma {:induction false} RemovePastedConcat(a: seq<Content>, b: seq<Content>, id: string)
    ensures RemovePasted(a + b, id) == RemovePasted(a, id) + RemovePasted(b, id)
  {
    if a == [] {
      assert a + b == b;
    } else {
      assert (a + b)[1..] == a[1..] + b;
      RemovePastedConcat(a[1..], b, id);
    }
  }

  /** Pasting with a fresh id and then removing that id restores the list. */
  lemma AddThenRemove(contents: seq<Content>, text: string, freshId: string, now: int)
    requires AbsentId(contents, freshId)
    ensures RemovePasted(AddPasted(contents, text, freshId, now), freshId) == contents
  {
    RemovePastedConcat(contents, [Content(freshId, text, now)], freshId);
    RemoveAbsentId(contents, freshId);
  }

  /** Dispatched through the store, each helper changes only the pasted list. */
  lemma HelpersOnlyTouchList(s: ChatInput, text: string, freshId: string, now: int, id: string)
    ensures Reduce(s, SetPastedContents(AddPasted(s.pastedContents, text, freshId, now)))
         == s.(pastedContents := s.pastedContents + [Content(freshId, text, now)])
    ensures Reduce(s, SetPastedContents(ClearPasted())) == s.(pastedContents := [])
    ensures var t := Reduce(s, SetPastedContents(RemovePasted(s.pastedContents, id)));
      t.text == s.text && t.model == s.model && t.promptType == s.promptType &&
      AbsentId(t.pastedContents, id)
  {
  }
}
