/** Rules shared by several forms. The e-mail rule of the registration and
    login forms (frontend/src/pages/Register.tsx, frontend/src/pages/Login.tsx):
    an empty address is missing, and a non-empty one must match
    `\S+@\S+\.\S+` somewhere inside it (the pattern is not anchored). The
    submit-button rule of the comment and official-update forms. */
module FormRules {
  import opened Wrappers
  import opened Text

  /** The pattern matches with its `@` at `p` and its `.` at `d`: a visible
      character before `@`, at least one visible character between `@` and
      `.` and nothing but visible characters there, a visible character
      after `.`. The matched text `s[p - 1..d + 2]` is one visible run. */
  predicate EmailMatchAt(s: string, p: int, d: int)
    ensures EmailMatchAt(s, p, d) ==> forall k | 0 <= p - 1 <= k <= d + 1 < |s| :: !IsWhitespace(s[k])
  {
    && 0 < p && p + 1 < d && d + 1 < |s|
    && s[p] == '@' && s[d] == '.'
    && !IsWhitespace(s[p - 1]) && !IsWhitespace(s[d + 1])
    && forall k | p < k < d :: !IsWhitespace(s[k])
  }

  /** `/\S+@\S+\.\S+/.test(s)`. A match needs at least five characters. */
  predicate LooksLikeEmail(s: string)
    ensures LooksLikeEmail(s) ==> |s| >= 5
  {
    exists p, d | 0 < p < d < |s| :: EmailMatchAt(s, p, d)
  }

  const EmailRequired: string := "Email is required"
  const EmailInvalid: string := "Please enter a valid email address"

  /** The e-mail field's message, if any. */
  function EmailError(email: string): (r: Option<string>)
    ensures r.None? <==> email != "" && LooksLikeEmail(email)
    ensures r.Some? ==> r.value == (if email == "" then EmailRequired else EmailInvalid)
  {
    if email == "" then Some(EmailRequired)
    else if !LooksLikeEmail(email) then Some(EmailInvalid)
    else None
  }

  /** Because the pattern is not anchored, text around an accepted address
      is accepted too. */
  lemma EmailPatternUnanchored(pre: string, s: string, post: string)
    requires LooksLikeEmail(s)
    ensures LooksLikeEmail(pre + s + post)
  {
    var p, d :| 0 < p < d < |s| && EmailMatchAt(s, p, d);
    var t := pre + s + post;
    var n := |pre|;
    assert forall k | 0 <= k < |s| :: t[n + k] == s[k];
    assert EmailMatchAt(t, p + n, d + n) by {
      forall k | p + n < k < d + n ensures !IsWhitespace(t[k]) {
        assert t[k] == s[k - n];
      }
    }
  }

  /** Any accepted address holds an `@` followed later by a `.`. */
  lemma AcceptedEmailShape(s: string)
    requires LooksLikeEmail(s)
    ensures exists p, d | 0 <= p < d < |s| :: s[p] == '@' && s[d] == '.'
  {
    var p, d :| 0 < p < d < |s| && EmailMatchAt(s, p, d);
  }

  /** The pattern accepts an address with a space in it, and rejects one
      without a dot after the `@`. */
  lemma EmailPatternExamples()
    ensures LooksLikeEmail("a@b.c")
    ensures LooksLikeEmail("not an@email.x")
    ensures !LooksLikeEmail("a@b")
  {
    assert EmailMatchAt("a@b.c", 1, 3);
    assert EmailMatchAt("not an@email.x", 6, 12);
  }

  /** `disabled={!text.trim() || isSubmitting}`: the button is disabled
      while a submission is in flight or while the text is blank. */
  function SubmitDisabled(text: string, submitting: bool): (d: bool)
    ensures d <==> submitting || AllWhitespace(text)
  {
    TrimEmptyIffBlank(text);
    Trim(text) == "" || submitting
  }

  /** What the comment and update handlers send for `text`: nothing when
      `!text.trim()` holds, which is exactly when the text is blank, and the
      trimmed text otherwise, non-empty and starting and ending visibly. */
  function SubmittedText(text: string): (sent: Option<string>)
    ensures sent.None? <==> AllWhitespace(text)
    ensures sent.Some? ==>
      && sent.value == Trim(text) && sent.value != ""
      && !IsWhitespace(sent.value[0]) && !IsWhitespace(sent.value[|sent.value| - 1])
  {
    TrimEmptyIffBlank(text);
    var trimmed := Trim(text);
    if trimmed == "" then None else Some(trimmed)
  }

  /** An enabled button means the handler's blank-text guard passes: the
      trimmed text it sends is non-empty and starts and ends visibly. */
  lemma EnabledSubmitSendsText(text: string, submitting: bool)
    requires !SubmitDisabled(text, submitting)
    ensures !submitting
    ensures Trim(text) != ""
    ensures !IsWhitespace(Trim(text)[0]) && !IsWhitespace(Trim(text)[|Trim(text)| - 1])
  {
    TrimEmptyIffBlank(text);
  }
}
