/** The comment box (frontend/src/components/issue/CommentForm.tsx): a
    submit of non-blank text hands the trimmed text to the optional callback,
    waits one second and clears the box. Nothing is sent anywhere else and
    nothing can fail. */
module CommentForm {
  import opened Wrappers
  import opened Text
  import opened FormRules

  /** The limit the counter displays; it is not enforced. */
  const DisplayedLimit: nat := 500

  class Form {
    var commentText: string
    var isSubmitting: bool

    constructor ()
      ensures commentText == "" && !isSubmitting
    {
      commentText, isSubmitting := "", false;
    }

    /** Typing: any length is accepted, the displayed limit included. */
    method SetCommentText(text: string)
      modifies this
      ensures commentText == text && isSubmitting == old(isSubmitting)
    {
      commentText := text;
    }

    /** `handleSubmit` up to the wait: blank text changes nothing;
        otherwise submission starts and, when a callback is given, it is
        called once with the trimmed text (returned here). */
    method Submit(hasCallback: bool) returns (started: bool, callbackArg: Option<string>)
      modifies this
      ensures started <==> !AllWhitespace(old(commentText))
      ensures !started ==> isSubmitting == old(isSubmitting) && callbackArg.None?
      ensures started ==> isSubmitting
      ensures callbackArg.Some? <==> started && hasCallback
      ensures callbackArg.Some? ==> callbackArg.value == Trim(commentText) && callbackArg.value != ""
      ensures commentText == old(commentText)
    {
      var sent := SubmittedText(commentText);
      callbackArg := None;
      started := sent.Some?;
      if !started {
        return;
      }
      isSubmitting := true;
      if hasCallback {
        callbackArg := sent;
      }
    }

    /** The one-second wait is over: the box is cleared and submission
        ends. */
    method WaitElapsed()
      modifies this
      ensures commentText == "" && !isSubmitting
    {
      commentText := "";
      isSubmitting := false;
    }
  }

  /** Text longer than the displayed limit is still submitted. */
  method OverLimitAccepted(f: Form) returns (arg: Option<string>)
    modifies f
    ensures arg.Some? && |arg.value| > DisplayedLimit
  {
    var long := seq(DisplayedLimit + 1, _ => 'x');
    f.SetCommentText(long);
    assert !IsWhitespace(long[0]);
    var started;
    started, arg := f.Submit(true);
    TrimEmptyIffBlank(long);
    assert Trim(long) == long by {
      assert TrimStart(long) == long;
      assert TrimEnd(long) == long;
    }
  }
}
