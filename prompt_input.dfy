// components/PromptInput.tsx: the idea text box with its local `prompt`
// state, the submit guard and the disabled condition of the submit button.
module PromptInput {
  import opened Types
  import opened Text

  class Form {
    /** The text currently in the text area. */
    var prompt: string

    constructor ()
      ensures prompt == ""
    {
      prompt := "";
    }

    /** The text area's change handler: the local text becomes what was typed. */
    method OnChange(value: string)
      modifies this
      ensures prompt == value
    {
      prompt := value;
    }

    /** The submit button is disabled while the text is white space only. */
    predicate SubmitDisabled()
      reads this
    {
      Trim(prompt) == ""
    }

    /**
     * handleSubmit: yields the value handed to `onImprovePrompt`, or None when
     * the callback is not called. The callback is called exactly when the
     * button is enabled, with the trimmed text, which is then non-empty and has
     * no white space at either end; the local text itself is left as typed.
     */
    method HandleSubmit() returns (submitted: Option<string>)
      ensures submitted.Some? <==> !SubmitDisabled()
      ensures submitted.Some? <==> !AllWhitespace(prompt)
      ensures submitted.Some? ==> submitted.value == Trim(prompt)
      ensures submitted.Some? ==> submitted.value != []
      ensures submitted.Some? ==> !IsJsWhitespace(submitted.value[0]) && !IsJsWhitespace(submitted.value[|submitted.value| - 1])
    {
      var trimmed := Trim(prompt);
      TrimEmptyIff(prompt);
      TrimRemovesBorders(prompt);
      if trimmed != "" {
        submitted := Some(trimmed);
      } else {
        submitted := None;
      }
    }
  }
}
