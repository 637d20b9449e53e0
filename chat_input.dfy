/** The chat composer (`ChatInput`): a text buffer capped at 500 UTF-16 code
    units, and a submit guard that sends only non-blank text while no reply is
    pending. `isLoading` is a prop of the component, so it is a parameter here;
    `onSendMessage` is the callback, so a send is the returned value. */
module ChatInputBox {
  import opened Wrappers
  import opened Js

  const MaxCharacters: nat := 500

  /** The guard of `handleSubmit`: `text.trim() && !isLoading`. */
  function CanSubmit(text: string, isLoading: bool): (ok: bool)
    ensures ok <==> !isLoading && exists i :: 0 <= i < |text| && !IsWhitespace(text[i])
  {
    Trim(text) != [] && !isLoading
  }

  /** The key press that submits the form instead of inserting a newline. */
  function SubmitsOnKeyDown(key: string, shiftKey: bool): (submits: bool)
    ensures submits ==> key == "Enter"
    ensures key == "Enter" ==> (submits <==> !shiftKey)
  {
    key == "Enter" && !shiftKey
  }

  class ChatInput {
    /** The `text` state of the component. */
    var text: string

    ghost predicate Valid()
      reads this
    {
      Utf16Length(text) <= MaxCharacters
    }

    constructor ()
      ensures Valid() && text == ""
    {
      text := "";
    }

    /** `handleTextChange`: an edit whose value is longer than the cap is refused,
        and the textarea, `disabled` while a reply is pending, takes no edit then. */
    method HandleTextChange(value: string, isLoading: bool)
      requires Valid()
      modifies this
      ensures Valid()
      ensures !isLoading && Utf16Length(value) <= MaxCharacters ==> text == value
      ensures isLoading || Utf16Length(value) > MaxCharacters ==> text == old(text)
    {
      if !isLoading && Utf16Length(value) <= MaxCharacters {
        text := value;
      }
    }

    /** `handleSubmit`: sends the untrimmed buffer and clears it, or does nothing. */
    method HandleSubmit(isLoading: bool) returns (sent: Option<string>)
      requires Valid()
      modifies this
      ensures Valid()
      ensures CanSubmit(old(text), isLoading) ==> sent == Some(old(text)) && text == ""
      ensures !CanSubmit(old(text), isLoading) ==> sent == None && text == old(text)
    {
      if CanSubmit(text, isLoading) {
        sent := Some(text);
        text := "";
      } else {
        sent := None;
      }
    }

    /** The textarea's `onKeyDown`: Enter without Shift prevents the newline
        and submits; any other key is left to the textarea. A disabled textarea,
        while a reply is pending, fires no key event at all. */
    method HandleKeyDown(key: string, shiftKey: bool, isLoading: bool)
      returns (preventDefault: bool, sent: Option<string>)
      requires Valid()
      modifies this
      ensures Valid()
      ensures preventDefault <==> !isLoading && SubmitsOnKeyDown(key, shiftKey)
      ensures preventDefault && CanSubmit(old(text), isLoading) ==> sent == Some(old(text)) && text == ""
      ensures !(preventDefault && CanSubmit(old(text), isLoading)) ==> sent == None && text == old(text)
    {
      preventDefault := !isLoading && SubmitsOnKeyDown(key, shiftKey);
      if preventDefault {
        sent := HandleSubmit(isLoading);
      } else {
        sent := None;
      }
    }

    /** The submit button's `disabled` prop. An enabled button always sends. */
    function SubmitDisabled(isLoading: bool): (disabled: bool)
      reads this
      ensures disabled <==> isLoading || IsBlank(text)
      ensures !disabled <==> CanSubmit(text, isLoading)
    {
      isLoading || Trim(text) == []
    }

    /** The send icon replaces the microphone once the buffer holds a non-blank text. */
    function ShowsSendIcon(): (send: bool)
      reads this
      ensures send <==> !IsBlank(text)
    {
      Trim(text) != []
    }
  }
}
