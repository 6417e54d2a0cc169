/** The official-update form (frontend/src/features/issue/DepartmentUpdateForm.tsx):
    shown only to department staff; a submit of non-blank text posts the
    trimmed text as an update and clears the box on success or shows an
    error on failure. */
module DepartmentUpdateForm {
  import opened Wrappers
  import opened Text
  import opened Schema
  import opened FormRules

  const PostFailedMessage: string := "Failed to post update. Please try again."

  /** The form renders only for a signed-in user whose role is
      `department`, the string the role is stored as. */
  predicate Visible(user: Option<User>)
    ensures Visible(user) <==> user.Some? && RoleName(user.value.role) == "department"
  {
    user.Some? && user.value.role == DepartmentStaff
  }

  /** The insert mutation's variables. */
  datatype UpdateMutation = UpdateMutation(issueId: string, authorId: string, content: string)

  class Form {
    const issueId: string
    var updateText: string
    var isSubmitting: bool
    var error: Option<string>

    constructor (issueId: string)
      ensures this.issueId == issueId
      ensures updateText == "" && !isSubmitting && error.None?
    {
      this.issueId := issueId;
      updateText, isSubmitting, error := "", false, None;
    }

    method SetUpdateText(text: string)
      modifies this
      ensures updateText == text && isSubmitting == old(isSubmitting) && error == old(error)
    {
      updateText := text;
    }

    /** `handleSubmit` up to the mutation: blank text changes nothing;
        otherwise submission starts, the error is cleared and the trimmed
        text is sent with the author's and the issue's ids. */
    method Submit(authorId: string) returns (m: Option<UpdateMutation>)
      modifies this
      ensures m.None? <==> AllWhitespace(old(updateText))
      ensures m.None? ==> isSubmitting == old(isSubmitting) && error == old(error)
      ensures m.Some? ==>
        && isSubmitting && error.None?
        && m.value == UpdateMutation(issueId, authorId, Trim(old(updateText)))
        && m.value.content != ""
        && !IsWhitespace(m.value.content[0])
        && !IsWhitespace(m.value.content[|m.value.content| - 1])
      ensures updateText == old(updateText)
    {
      var sent := SubmittedText(updateText);
      if sent.None? {
        return None;
      }
      isSubmitting := true;
      error := None;
      m := Some(UpdateMutation(issueId, authorId, sent.value));
    }

    /** The mutation has ended: success clears the text, failure keeps it
        and shows the error; submission ends either way. */
    method Settled(succeeded: bool)
      modifies this
      ensures !isSubmitting
      ensures succeeded ==> updateText == "" && error == old(error)
      ensures !succeeded ==> updateText == old(updateText) && error == Some(PostFailedMessage)
    {
      if succeeded {
        updateText := "";
      } else {
        error := Some(PostFailedMessage);
      }
      isSubmitting := false;
    }
  }

  /** A post that fails can be retried at once with the same text. */
  method FailedPostRetries(f: Form, authorId: string) returns (again: Option<UpdateMutation>)
    requires !AllWhitespace(f.updateText)
    modifies f
    ensures again.Some? && again.value.content == Trim(old(f.updateText))
    ensures f.error.None? && f.isSubmitting
  {
    var first := f.Submit(authorId);
    f.Settled(false);
    again := f.Submit(authorId);
  }
}
