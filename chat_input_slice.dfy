/** The chat-input store slice (client/src/store/chat-input/slice.ts): the
    draft text, the list of pasted contents, the chosen model and the prompt
    type, with one setter per field and a reset of the draft. */
module ChatInputSlice {
  import opened Types

  /** One pasted block: its id, its text and when it was pasted (ms). */
  datatype Content = Content(id: string, content: string, timestamp: int)

  /** The slice state; the prompt type is the id of a prompt preset. */
  datatype ChatInput = ChatInput(text: string, pastedContents: seq<Content>, model: Model, promptType: string)

  const Initial := ChatInput("", [], Gpt4oMini, "teacher")

  datatype Action =
    | SelectModel(model: Model)
    | SetText(text: string)
    | SetPastedContents(contents: seq<Content>)
    | SetPromptType(promptType: string)
    | Reset

  /** The slice reducer. */
  function Reduce(s: ChatInput, a: Action): (r: ChatInput)
    ensures !a.SelectModel? ==> r.model == s.model
    ensures !a.SetPromptType? ==> r.promptType == s.promptType
    ensures a.Reset? ==> r.text == [] && r.pastedContents == []
  {
    match a
    case SelectModel(m) => s.(model := m)
    case SetText(t) => s.(text := t)
    case SetPastedContents(cs) => s.(pastedContents := cs)
    case SetPromptType(p) => s.(promptType := p)
    case Reset => s.(text := "", pastedContents := [])
  }

  /** Reset empties the draft and keeps the model and prompt type chosen;
      resetting twice is resetting once. */
  lemma ResetKeepsChoices(s: ChatInput)
    ensures var t := Reduce(s, Reset);
      t.text == "" && t.pastedContents == [] && t.model == s.model && t.promptType == s.promptType
    ensures Reduce(Reduce(s, Reset), Reset) == Reduce(s, Reset)
  {
  }

  /** The four setters write four different fields: any two of them commute,
      and the choices survive a reset. */
  lemma SettersCommute(s: ChatInput, m: Model, t: string, cs: seq<Content>, p: string)
    ensures Reduce(Reduce(s, SelectModel(m)), SetText(t)) == Reduce(Reduce(s, SetText(t)), SelectModel(m))
    ensures Reduce(Reduce(s, SetPastedContents(cs)), SetPromptType(p))
         == Reduce(Reduce(s, SetPromptType(p)), SetPastedContents(cs))
    ensures Reduce(Reduce(s, SelectModel(m)), Reset) == Reduce(Reduce(s, Reset), SelectModel(m))
    ensures Reduce(Reduce(s, SetPromptType(p)), Reset) == Reduce(Reduce(s, Reset), SetPromptType(p))
  {
  }

  /** The store holding the slice; each method is one reducer case. */
  class ChatInputStore {
    var text: string
    var pastedContents: seq<Content>
    var model: Model
    var promptType: string

    function State(): ChatInput
      reads this
    {
      ChatInput(text, pastedContents, model, promptType)
    }

    constructor ()
      ensures State() == Initial
    {
      text := "";
      pastedContents := [];
      model := Gpt4oMini;
      promptType := "teacher";
    }

    method SelectModelAction(m: Model)
      modifies this
      ensures State() == Reduce(old(State()), SelectModel(m))
    {
      model := m;
    }

    method SetTextAction(t: string)
      modifies this
      ensures State() == Reduce(old(State()), SetText(t))
    {
      text := t;
    }

    method SetPastedContentsAction(cs: seq<Content>)
      modifies this
      ensures State() == Reduce(old(State()), SetPastedContents(cs))
    {
      pastedContents := cs;
    }

    method SetPromptTypeAction(p: string)
      modifies this
      ensures State() == Reduce(old(State()), SetPromptType(p))
    {
      promptType := p;
    }

    method ResetAction()
      modifies this
      ensures State() == Reduce(old(State()), Reset)
    {
      text := "";
      pastedContents := [];
    }
  }
}
