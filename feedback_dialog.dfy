/** The dialog asking for the reason of a negative rating
    (components/Chat/FeedbackDialog.tsx); its only state is the text field. */
module FeedbackDialog {
  import opened Wrappers
  import opened Text

  /** The callbacks the dialog invokes on its parent. */
  datatype Callback = OnClose | OnSubmit(feedback: string)

  /** The submit button is disabled exactly when the text is blank. */
  function SubmitDisabled(value: string): (disabled: bool)
    ensures disabled <==> AllWhitespace(value)
  {
    IsBlank(value)
  }

  /** What a click on submit hands to `onSubmit`: the trimmed text, which is
      never empty and has no whitespace at either end; nothing when the
      button is disabled. */
  function Submission(value: string): (r: Option<string>)
    ensures r.None? <==> SubmitDisabled(value)
    ensures r.Some? ==> r.value != [] && !IsWhitespace(r.value[0]) && !IsWhitespace(r.value[|r.value| - 1])
    ensures r.Some? ==> r.value == Trim(value) && Trim(r.value) == r.value
  {
    if SubmitDisabled(value) then None
    else
      TrimIdempotent(value);
      Some(Trim(value))
  }

  class Dialog {
    var value: string

    constructor ()
      ensures value == ""
    {
      value := "";
    }

    method Edit(text: string)
      modifies this
      ensures value == text
    {
      value := text;
    }

    /** Submit: `onSubmit` receives `Submission(value)` and the field resets;
        a click on the disabled button does nothing. */
    method Submit() returns (call: Option<Callback>)
      modifies this
      ensures call.Some? <==> Submission(old(value)).Some?
      ensures call.Some? ==> call.value == OnSubmit(Submission(old(value)).value)
      ensures value == (if call.Some? then "" else old(value))
    {
      var submitted := Submission(value);
      if submitted.Some? {
        call := Some(OnSubmit(submitted.value));
        value := "";
      } else {
        call := None;
      }
    }

    /** Cancel only calls `onClose`: nothing is submitted, and with no
        `modifies` clause the text provably stays. */
    method Cancel() returns (call: Callback)
      ensures call == OnClose
    {
      call := OnClose;
    }
  }
}
