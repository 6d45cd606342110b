/** The chat input form (client/src/components/llm/ChatInput.tsx): the
    submit guard, the message put together from the draft and the pasted
    contents, the long-paste diversion and the attached files. The draft
    itself lives in the chat-input store. */
module ChatInputForm {
  import opened Wrappers
  import opened Text
  import opened Types
  import opened ChatInputSlice
  import opened ChatInputHook

  /** Pastes longer than this become pasted contents. */
  const MaxInputLength := 1000

  const Separator := "\n\n"

  /** An attached file, known by its name. */
  datatype File = File(name: string)

  /** What is handed to `onSubmit`. */
  datatype Submission = Submission(message: string, model: Model, promptType: string, attachments: seq<File>)

  /** Submitting is refused while loading, and when there is nothing to send:
      a blank draft, no pasted contents and no files. */
  predicate CanSubmit(text: string, pastedCount: int, fileCount: int, isLoading: bool) {
    !((Trim(text) == [] && pastedCount == 0 && fileCount == 0) || isLoading)
  }

  /** The send button's `disabled` expression. */
  predicate SendDisabled(text: string, pastedCount: int, fileCount: int, isLoading: bool) {
    (Trim(text) == [] && pastedCount == 0 && fileCount == 0) || isLoading
  }

  /** The send button is disabled exactly when a submit would be refused. */
  lemma SendDisabledIffRefused(text: string, pastedCount: int, fileCount: int, isLoading: bool)
    ensures SendDisabled(text, pastedCount, fileCount, isLoading) <==> !CanSubmit(text, pastedCount, fileCount, isLoading)
  {
  }

  /** `.filter(Boolean)` on strings: the empty ones dropped, the rest in order. */
  function DropEmpty(parts: seq<string>): (r: seq<string>)
    ensures |r| <= |parts|
    ensures forall i :: 0 <= i < |r| ==> r[i] != [] && r[i] in parts
    ensures forall i :: 0 <= i < |parts| && parts[i] != [] ==> parts[i] in r
  {
    if parts == [] then []
    else if parts[0] == [] then DropEmpty(parts[1..])
    else [parts[0]] + DropEmpty(parts[1..])
  }

  /** The texts of the pasted contents, in order. */
  function ContentTexts(contents: seq<Content>): (r: seq<string>)
    ensures |r| == |contents| && forall i :: 0 <= i < |contents| ==> r[i] == contents[i].content
  {
    seq(|contents|, i requires 0 <= i < |contents| => contents[i].content)
  }

  /** Dropping the empty parts of two lists one after the other is dropping
      them from each list separately: the kept parts stay in order. */
  lemma {:induction false} DropEmptyConcat(a: seq<string>, b: seq<string>)
    ensures DropEmpty(a + b) == DropEmpty(a) + DropEmpty(b)
  {
    if a == [] {
      assert a + b == b;
    } else {
      assert (a + b)[1..] == a[1..] + b;
      DropEmptyConcat(a[1..], b);
    }
  }

  /** A list without empty parts is kept whole. */
  lemma {:induction false} DropEmptyKeepsNonEmpty(parts: seq<string>)
    requires forall i :: 0 <= i < |parts| ==> parts[i] != []
    ensures DropEmpty(parts) == parts
  {
    if parts != [] {
      DropEmptyKeepsNonEmpty(parts[1..]);
    }
  }

  /** fullMessage: the trimmed draft and the pasted texts, empty ones
      dropped, joined by a blank line. */
  function ComposeMessage(text: string, contents: seq<Content>): (m: string)
    ensures contents == [] ==> m == Trim(text)
  {
    Join(DropEmpty([Trim(text)] + ContentTexts(contents)), Separator)
  }

  /** The message is the trimmed draft, when it is not blank, followed by
      the non-empty pasted texts in their order, separated by blank lines;
      with a non-blank draft and no empty pasted text, every part is sent. */
  lemma MessageParts(text: string, contents: seq<Content>)
    ensures ComposeMessage(text, contents) ==
      Join((if Trim(text) == [] then [] else [Trim(text)]) + DropEmpty(ContentTexts(contents)), Separator)
    ensures Trim(text) != [] && (forall i :: 0 <= i < |contents| ==> contents[i].content != []) ==>
      ComposeMessage(text, contents) == Join([Trim(text)] + ContentTexts(contents), Separator)
  {
    DropEmptyConcat([Trim(text)], ContentTexts(contents));
    assert DropEmpty([Trim(text)]) == if Trim(text) == [] then [] else [Trim(text)];
    if forall i :: 0 <= i < |contents| ==> contents[i].content != [] {
      DropEmptyKeepsNonEmpty(ContentTexts(contents));
    }
  }

  lemma JoinStartsWithHead(parts: seq<string>, sep: string)
    requires |parts| >= 1
    ensures StartsWith(Join(parts, sep), parts[0])
  {
  }

  /** The message is empty exactly when the trimmed draft and every pasted
      text are empty. */
  lemma MessageEmptyIff(text: string, contents: seq<Content>)
    ensures ComposeMessage(text, contents) == [] <==>
      Trim(text) == [] && forall i :: 0 <= i < |contents| ==> contents[i].content == []
  {
    var parts := [Trim(text)] + ContentTexts(contents);
    var kept := DropEmpty(parts);
    if kept != [] {
      JoinStartsWithHead(kept, Separator);
      assert kept[0] != [];
      assert kept[0] in parts;
    } else {
      assert parts[0] == Trim(text);
      forall i | 0 <= i < |contents|
        ensures contents[i].content == []
      {
        assert parts[i + 1] == contents[i].content;
      }
    }
    if Trim(text) != [] {
      assert parts[0] in kept;
    }
    if exists i :: 0 <= i < |contents| && contents[i].content != [] {
      var i :| 0 <= i < |contents| && contents[i].content != [];
      assert parts[i + 1] == contents[i].content;
      assert parts[i + 1] in kept;
    }
  }

  /** Without pasted contents the message is the trimmed draft; with a
      non-blank draft the message starts with it. */
  lemma MessageShape(text: string, contents: seq<Content>)
    ensures contents == [] ==> ComposeMessage(text, contents) == Trim(text)
    ensures Trim(text) != [] ==> StartsWith(ComposeMessage(text, contents), Trim(text))
  {
    var parts := [Trim(text)] + ContentTexts(contents);
    if Trim(text) != [] {
      assert DropEmpty(parts) == [Trim(text)] + DropEmpty(parts[1..]);
      JoinStartsWithHead(DropEmpty(parts), Separator);
    }
    if contents == [] {
      assert parts == [Trim(text)];
      assert DropEmpty(parts[1..]) == [];
    }
  }

  /** `files.filter((_, i) => i !== index)`, walking from position 0. */
  function RemoveAt(files: seq<File>, index: int): (r: seq<File>)
  {
    if files == [] then []
    else (if index == 0 then [] else [files[0]]) + RemoveAt(files[1..], index - 1)
  }

  /** removeFile drops exactly the file at the position, and nothing when
      the position is outside the list. */
  lemma {:induction false} RemoveAtSlices(files: seq<File>, index: int)
    ensures 0 <= index < |files| ==> RemoveAt(files, index) == files[..index] + files[index + 1..]
    ensures !(0 <= index < |files|) ==> RemoveAt(files, index) == files
  {
    if files != [] {
      RemoveAtSlices(files[1..], index - 1);
      if index == 0 {
        assert files[1..] == files[..0] + files[1..];
      } else if 0 < index < |files| {
        assert files[..index] == [files[0]] + files[1..][..index - 1];
        assert files[index + 1..] == files[1..][index..];
      } else {
        assert [files[0]] + files[1..] == files;
      }
    }
  }

  /** The form's own state: the attached files; the draft is in `store`. */
  class ChatInputController {
    var attachedFiles: seq<File>
    const store: ChatInputStore

    constructor (store: ChatInputStore)
      ensures attachedFiles == [] && this.store == store
    {
      attachedFiles := [];
      this.store := store;
    }

    /** The textarea's change handler. */
    method TextChanged(value: string)
      modifies store
      ensures store.State() == Reduce(old(store.State()), SetText(value))
    {
      store.SetTextAction(value);
    }

    /** handlePaste: a long paste is stored as a pasted content (and kept
        out of the textarea); a short one is left to the textarea. */
    method Paste(pasted: string, freshId: string, now: int) returns (diverted: bool)
      modifies store
      ensures diverted <==> |pasted| > MaxInputLength
      ensures diverted ==>
        (store.State() ==
         Reduce(old(store.State()), SetPastedContents(AddPasted(old(store.pastedContents), pasted, freshId, now))))
      ensures !diverted ==> store.State() == old(store.State())
    {
      diverted := |pasted| > MaxInputLength;
      if diverted {
        store.SetPastedContentsAction(AddPasted(store.pastedContents, pasted, freshId, now));
      }
    }

    /** handleFileChange: the chosen files, if any, appended in order. */
    method FilesChosen(files: Option<seq<File>>)
      modifies this
      ensures attachedFiles == old(attachedFiles) + (if files.Some? then files.value else [])
    {
      if files.Some? {
        attachedFiles := attachedFiles + files.value;
      }
    }

    method RemoveFile(index: int)
      modifies this
      ensures attachedFiles == RemoveAt(old(attachedFiles), index)
    {
      attachedFiles := RemoveAt(attachedFiles, index);
    }

    /** handleSubmit. `succeeds` is the outcome of the awaited `onSubmit`:
        the draft is reset only when it resolves; when it throws, the draft
        is kept. The attached files are not cleared either way. */
    method Submit(isLoading: bool, succeeds: bool) returns (sent: Option<Submission>)
      modifies store
      ensures sent.Some? <==>
        CanSubmit(old(store.text), |old(store.pastedContents)|, |attachedFiles|, isLoading)
      ensures sent.Some? ==> sent.value == Submission(
        ComposeMessage(old(store.text), old(store.pastedContents)),
        old(store.model), old(store.promptType), attachedFiles)
      ensures store.State() == if sent.Some? && succeeds then Reduce(old(store.State()), Reset) else old(store.State())
    {
      if !CanSubmit(store.text, |store.pastedContents|, |attachedFiles|, isLoading) {
        return None;
      }
      var fullMessage := ComposeMessage(store.text, store.pastedContents);
      sent := Some(Submission(fullMessage, store.model, store.promptType, attachedFiles));
      if succeeds {
        store.ResetAction();
      }
    }

    /** The effect cleanup on unmount resets the draft. */
    method Unmount()
      modifies store
      ensures store.State() == Reduce(old(store.State()), Reset)
    {
      store.ResetAction();
    }
  }
}
