/** The sign-in page (frontend/src/pages/Login.tsx): email and password
    validation, field edits that clear that field's error, and a submit that
    waits and then moves to the dashboard without calling any provider. */
module Login {
  import opened Wrappers
  import opened FormRules
  import Register

  /** Keys of the error map. */
  datatype Key = Email | Password | General

  datatype Credentials = Credentials(email: string, password: string)

  const PasswordRequired: string := "Password is required"
  const DashboardPath: string := "/dashboard"

  /** What a form that passes validation satisfies: a well-formed email and
      any non-empty password (no length rule on this page). */
  predicate FormValid(c: Credentials) {
    c.email != "" && LooksLikeEmail(c.email) && c.password != ""
  }

  /** The error map `validateForm` builds: the e-mail rule's message and
      "Password is required" for an empty password, nothing else. It is
      empty exactly for a form that passes both rules. */
  function Errors(c: Credentials): (m: map<Key, string>)
    ensures m.Keys <= {Email, Password}
    ensures Email in m <==> EmailError(c.email).Some?
    ensures Email in m ==> m[Email] == EmailError(c.email).value
    ensures Password in m <==> c.password == ""
    ensures Password in m ==> m[Password] == PasswordRequired
    ensures m == map[] <==> FormValid(c)
  {
    var e := EmailError(c.email);
    var withEmail: map<Key, string> := if e.Some? then map[Email := e.value] else map[];
    var m := if c.password == "" then withEmail[Password := PasswordRequired] else withEmail;
    assert m == map[] ==> Email !in m && Password !in m;
    m
  }

  /** `validateForm`. */
  method ValidateForm(c: Credentials) returns (newErrors: map<Key, string>, valid: bool)
    ensures newErrors == Errors(c)
    ensures valid <==> newErrors == map[]
    ensures valid <==> FormValid(c)
  {
    newErrors := map[];
    var e := EmailError(c.email);
    if e.Some? {
      newErrors := newErrors[Email := e.value];
    }
    if c.password == "" {
      newErrors := newErrors[Password := PasswordRequired];
    }
    valid := |newErrors| == 0;
    if !valid {
      assert newErrors.Keys != {};
    }
  }

  /** A one-character password is enough here, unlike on the registration
      page, which asks for six. */
  lemma ShortPasswordAccepted()
    ensures FormValid(Credentials("a@b.c", "x"))
    ensures !Register.FormValid(Register.FormData("a@b.c", "x", "x", "citizen", ""))
  {
    EmailPatternExamples();
  }

  class LoginPage {
    var form: Credentials
    var errors: map<Key, string>
    var isLoading: bool

    constructor ()
      ensures form == Credentials("", "") && errors == map[] && !isLoading
    {
      form, errors, isLoading := Credentials("", ""), map[], false;
    }

    /** `handleInputChange`. */
    method HandleInputChange(field: Key, value: string)
      requires field != General
      modifies this
      ensures form == if field == Email then old(form).(email := value) else old(form).(password := value)
      ensures errors == if field in old(errors) && old(errors)[field] != ""
                        then old(errors)[field := ""] else old(errors)
      ensures isLoading == old(isLoading)
    {
      if field == Email {
        form := form.(email := value);
      } else {
        form := form.(password := value);
      }
      if field in errors && errors[field] != "" {
        errors := errors[field := ""];
      }
    }

    /** The submit handler up to the one-second wait: errors are replaced by
        the validation result and a valid form starts loading. */
    method Submit() returns (started: bool)
      modifies this
      ensures form == old(form)
      ensures started <==> FormValid(form)
      ensures started ==> errors == map[] && isLoading
      ensures !started ==> errors != map[] && isLoading == old(isLoading)
      ensures errors == Errors(form)
    {
      var newErrors, valid := ValidateForm(form);
      errors := newErrors;
      if !valid {
        return false;
      }
      isLoading := true;
      started := true;
    }

    /** After the wait: navigate to the dashboard and stop loading. */
    method WaitElapsed() returns (navigateTo: string)
      modifies this
      ensures navigateTo == DashboardPath
      ensures !isLoading && form == old(form) && errors == old(errors)
    {
      navigateTo := DashboardPath;
      isLoading := false;
    }
  }
}
