/**
 * The message box of the chat panels (src/components/features/ChatInput.tsx):
 * the typed text, the input-method composition flag, and the submit rule
 * (Enter without Shift, outside a composition, sends the trimmed text). The
 * parent's loading flag is a parameter; the text area's height is not
 * modelled.
 */
module ChatInput {
  import opened Wrappers
  import opened Strings

  /** The send button is disabled while the text is blank or a reply is loading. */
  predicate SendDisabled(message: string, isLoading: bool) {
    Trim(message) == "" || isLoading
  }

  /** What a submit hands to the parent: the trimmed text, unless the button would be disabled. */
  function Submitted(message: string, isLoading: bool): (r: Option<string>)
    ensures r.Some? <==> !SendDisabled(message, isLoading)
    ensures r.Some? ==> r.value != "" && !IsSpace(r.value[0]) && !IsSpace(r.value[|r.value| - 1])
  {
    var t := Trim(message);
    if t != "" && !isLoading then Some(t) else None
  }

  /** A submitted text has the same visible characters, in the same order, as the typed text. */
  lemma SubmittedKeepsVisible(message: string, isLoading: bool)
    requires !SendDisabled(message, isLoading)
    ensures Visible(Submitted(message, isLoading).value) == Visible(message)
  {
    TrimKeepsVisible(message);
  }

  /** The key that submits: Enter without Shift, outside an input-method composition. */
  predicate Submits(key: string, shiftKey: bool, isComposing: bool) {
    key == "Enter" && !shiftKey && !isComposing
  }

  class Box {
    var message: string
    var isComposing: bool

    constructor ()
      ensures message == "" && !isComposing
    {
      message := "";
      isComposing := false;
    }

    /** The text area's `onChange`. */
    method Type(text: string)
      modifies this
      ensures message == text && isComposing == old(isComposing)
    {
      message := text;
    }

    method CompositionStart()
      modifies this
      ensures isComposing && message == old(message)
    {
      isComposing := true;
    }

    method CompositionEnd()
      modifies this
      ensures !isComposing && message == old(message)
    {
      isComposing := false;
    }

    /** `handleSubmit`: a sent text empties the box; otherwise nothing changes. */
    method Submit(isLoading: bool) returns (sent: Option<string>)
      modifies this
      ensures sent == Submitted(old(message), isLoading)
      ensures message == if sent.Some? then "" else old(message)
      ensures isComposing == old(isComposing)
    {
      var t := Trim(message);
      if t != "" && !isLoading {
        sent := Submitted(message, isLoading);
        message := "";
      } else {
        sent := None;
      }
    }

    /** `handleKeyDown`: the submitting key submits; any other key changes nothing here. */
    method KeyDown(key: string, shiftKey: bool, isLoading: bool) returns (sent: Option<string>)
      modifies this
      ensures Submits(key, shiftKey, old(isComposing)) ==> sent == Submitted(old(message), isLoading)
      ensures !Submits(key, shiftKey, old(isComposing)) ==> sent.None?
      ensures message == if sent.Some? then "" else old(message)
      ensures isComposing == old(isComposing)
    {
      if key == "Enter" && !shiftKey && !isComposing {
        sent := Submit(isLoading);
      } else {
        sent := None;
      }
    }
  }
}
