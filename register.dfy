/** The registration page (frontend/src/pages/Register.tsx): per-field
    validation into an error map, field edits that clear that field's error,
    the sign-up request, and the mapping from the provider's sign-up error to
    the message shown. */
module Register {
  import opened Wrappers
  import opened Text
  import opened FormRules

  /** Keys of the error map: the form's fields and `general`. */
  datatype Key = Email | Password | ConfirmPassword | Role | DepartmentId | General

  /** The form's fields. `role` is the select's value, `"citizen"` or
      `"department"`. */
  datatype FormData = FormData(email: string, password: string, confirmPassword: string, role: string, departmentId: string)

  const InitialForm: FormData := FormData("", "", "", "citizen", "")
  const MinPasswordLength: nat := 6
  const DepartmentRole: string := "department"

  const PasswordRequired: string := "Password is required"
  const PasswordTooShort: string := "Password must be at least 6 characters long"
  const ConfirmRequired: string := "Please confirm your password"
  const PasswordsDiffer: string := "Passwords do not match"
  const DepartmentRequired: string := "Please select a department"

  /** `password.length < 6` counts UTF-16 code units, so a password of
      three characters above U+FFFF (six units) is long enough. */
  function PasswordError(password: string): (r: Option<string>)
    ensures r.None? <==> Utf16Length(password) >= MinPasswordLength
    ensures r.Some? ==> r.value == (if password == "" then PasswordRequired else PasswordTooShort)
  {
    if password == "" then Some(PasswordRequired)
    else if Utf16Length(password) < MinPasswordLength then Some(PasswordTooShort)
    else None
  }

  /** Checked whether or not the password itself passed. */
  function ConfirmError(password: string, confirm: string): (r: Option<string>)
    ensures r.None? <==> confirm != "" && confirm == password
    ensures r.Some? ==> r.value == (if confirm == "" then ConfirmRequired else PasswordsDiffer)
  {
    if confirm == "" then Some(ConfirmRequired)
    else if password != confirm then Some(PasswordsDiffer)
    else None
  }

  /** Only department staff must pick a department. */
  function DepartmentError(role: string, departmentId: string): (r: Option<string>)
    ensures r.Some? <==> role == DepartmentRole && departmentId == ""
    ensures r.Some? ==> r.value == DepartmentRequired
  {
    if role == DepartmentRole && departmentId == "" then Some(DepartmentRequired) else None
  }

  /** What a form that passes validation satisfies. */
  predicate FormValid(f: FormData) {
    && f.email != "" && LooksLikeEmail(f.email)
    && Utf16Length(f.password) >= MinPasswordLength
    && f.confirmPassword == f.password
    && (f.role == DepartmentRole ==> f.departmentId != "")
  }

  /** The error map `validateForm` builds: an entry exactly for each field
      whose rule fires, holding that rule's message, and nothing else. It is
      empty exactly for a form that passes every rule. */
  function Errors(f: FormData): (m: map<Key, string>)
    ensures m.Keys <= {Email, Password, ConfirmPassword, DepartmentId}
    ensures Email in m <==> EmailError(f.email).Some?
    ensures Email in m ==> m[Email] == EmailError(f.email).value
    ensures Password in m <==> PasswordError(f.password).Some?
    ensures Password in m ==> m[Password] == PasswordError(f.password).value
    ensures ConfirmPassword in m <==> ConfirmError(f.password, f.confirmPassword).Some?
    ensures ConfirmPassword in m ==> m[ConfirmPassword] == ConfirmError(f.password, f.confirmPassword).value
    ensures DepartmentId in m <==> DepartmentError(f.role, f.departmentId).Some?
    ensures DepartmentId in m ==> m[DepartmentId] == DepartmentRequired
    ensures m == map[] <==> FormValid(f)
  {
    var e := EmailError(f.email);
    var p := PasswordError(f.password);
    var c := ConfirmError(f.password, f.confirmPassword);
    var d := DepartmentError(f.role, f.departmentId);
    var withEmail: map<Key, string> := if e.Some? then map[Email := e.value] else map[];
    var withPassword := if p.Some? then withEmail[Password := p.value] else withEmail;
    var withConfirm := if c.Some? then withPassword[ConfirmPassword := c.value] else withPassword;
    var m := if d.Some? then withConfirm[DepartmentId := d.value] else withConfirm;
    assert m == map[] ==> Email !in m && Password !in m && ConfirmPassword !in m && DepartmentId !in m;
    m
  }

  /** `validateForm`: fills a fresh error map rule by rule; the form is valid
      exactly when the map stays empty. */
  method ValidateForm(f: FormData) returns (newErrors: map<Key, string>, valid: bool)
    ensures newErrors == Errors(f)
    ensures valid <==> newErrors == map[]
    ensures valid <==> FormValid(f)
  {
    newErrors := map[];
    var e := EmailError(f.email);
    if e.Some? {
      newErrors := newErrors[Email := e.value];
    }
    var p := PasswordError(f.password);
    if p.Some? {
      newErrors := newErrors[Password := p.value];
    }
    var c := ConfirmError(f.password, f.confirmPassword);
    if c.Some? {
      newErrors := newErrors[ConfirmPassword := c.value];
    }
    var d := DepartmentError(f.role, f.departmentId);
    if d.Some? {
      newErrors := newErrors[DepartmentId := d.value];
    }
    valid := |newErrors| == 0;
    if !valid {
      assert newErrors.Keys != {};
    }
  }

  /** Three emoji make a long enough password, five letters do not. */
  lemma PasswordCountsCodeUnits()
    ensures PasswordError("\U{1F600}\U{1F600}\U{1F600}").None?
    ensures PasswordError("abcde").Some?
  {
    var smile := "\U{1F600}\U{1F600}\U{1F600}";
    assert smile[1..][1..][1..] == "";
    assert "abcde"[1..][1..][1..][1..][1..] == "";
  }

  /** A citizen is never asked for a department, whatever the department
      field holds. */
  lemma CitizenNeedsNoDepartment(f: FormData)
    requires f.role == "citizen"
    ensures FormValid(f) <==> FormValid(f.(departmentId := ""))
    ensures DepartmentError(f.role, f.departmentId).None?
  {
  }

  /** The department id sent with the sign-up: the selected one for
      department staff, `null` for everyone else. */
  function DepartmentIdSent(f: FormData): (r: Option<string>)
    ensures r.Some? <==> f.role == DepartmentRole
    ensures r.Some? ==> r.value == f.departmentId
  {
    if f.role == DepartmentRole then Some(f.departmentId) else None
  }

  /** The sign-up call's arguments. */
  datatype SignUpRequest = SignUpRequest(email: string, password: string, role: string, departmentId: Option<string>)

  const AlreadyRegisteredMessage: string := "This email is already registered. Please sign in instead."
  const InvalidEmailMessage: string := "Please enter a valid email address."
  const WeakPasswordMessage: string := "Password does not meet requirements. Please use a stronger password."
  const RegistrationFailedMessage: string := "Registration failed. Please try again."

  /** The message shown for a sign-up error, matched case-insensitively and
      in priority order; the shown message is never empty. */
  function SignUpErrorMessage(message: string): (r: string)
    ensures r != ""
    ensures Contains(ToLower(message), "already registered") ==> r == AlreadyRegisteredMessage
    ensures (!Contains(ToLower(message), "already registered")
             && Contains(ToLower(message), "invalid email")) ==> r == InvalidEmailMessage
    ensures (!Contains(ToLower(message), "already registered")
             && !Contains(ToLower(message), "invalid email")
             && Contains(ToLower(message), "password")) ==> r == WeakPasswordMessage
    ensures (!Contains(ToLower(message), "already registered")
             && !Contains(ToLower(message), "invalid email")
             && !Contains(ToLower(message), "password")) ==>
            r == (if message != "" then message else RegistrationFailedMessage)
  {
    var lower := ToLower(message);
    if Contains(lower, "already registered") then AlreadyRegisteredMessage
    else if Contains(lower, "invalid email") then InvalidEmailMessage
    else if Contains(lower, "password") then WeakPasswordMessage
    else if message != "" then message
    else RegistrationFailedMessage
  }

  /** Case does not matter for the three recognised errors. */
  lemma SignUpErrorIgnoresCase(message: string)
    requires Contains(ToLower(message), "already registered")
             || Contains(ToLower(message), "invalid email")
             || Contains(ToLower(message), "password")
    ensures SignUpErrorMessage(ToLower(message)) == SignUpErrorMessage(message)
  {
    assert ToLower(ToLower(message)) == ToLower(message);
  }

  /** How the sign-up call ended: success, an error returned by the
      provider, or an exception (an `Error` with its message, or another
      value). */
  datatype SignUpOutcome = SignedUp | ReturnedError(message: string) | ThrewError(message: string) | ThrewOther

  const LoginPath: string := "/login"

  /** The page's state. */
  class RegisterPage {
    var form: FormData
    var errors: map<Key, string>
    var isLoading: bool

    constructor ()
      ensures form == InitialForm && errors == map[] && !isLoading
    {
      form, errors, isLoading := InitialForm, map[], false;
    }

    /** `handleInputChange`: the edited field takes the new value; its error,
        if it shows one, is blanked; nothing else changes. */
    method HandleInputChange(field: Key, value: string)
      requires field != General
      modifies this
      ensures form == match field
        case Email => old(form).(email := value)
        case Password => old(form).(password := value)
        case ConfirmPassword => old(form).(confirmPassword := value)
        case Role => old(form).(role := value)
        case DepartmentId => old(form).(departmentId := value)
      ensures errors == if field in old(errors) && old(errors)[field] != ""
                        then old(errors)[field := ""] else old(errors)
      ensures isLoading == old(isLoading)
    {
      match field {
        case Email => form := form.(email := value);
        case Password => form := form.(password := value);
        case ConfirmPassword => form := form.(confirmPassword := value);
        case Role => form := form.(role := value);
        case DepartmentId => form := form.(departmentId := value);
      }
      if field in errors && errors[field] != "" {
        errors := errors[field := ""];
      }
    }

    /** The submit handler up to the sign-up call: the errors are replaced by
        the validation result; an invalid form stops here, a valid one starts
        loading and sends the request. */
    method Submit() returns (request: Option<SignUpRequest>)
      modifies this
      ensures form == old(form)
      ensures request.Some? <==> FormValid(form)
      ensures FormValid(form) ==>
        && errors == map[] && isLoading
        && request.value == SignUpRequest(form.email, form.password, form.role, DepartmentIdSent(form))
      ensures !FormValid(form) ==> errors != map[] && isLoading == old(isLoading)
      ensures errors == Errors(form)
    {
      var newErrors, valid := ValidateForm(form);
      errors := newErrors;
      if !valid {
        return None;
      }
      isLoading := true;
      request := Some(SignUpRequest(form.email, form.password, form.role, DepartmentIdSent(form)));
    }

    /** The rest of the submit handler, once the sign-up call has ended:
        success navigates to the login page; any error is shown as the
        general error; loading ends either way. */
    method SignUpFinished(outcome: SignUpOutcome) returns (navigateTo: Option<string>)
      modifies this
      ensures !isLoading && form == old(form)
      ensures navigateTo.Some? <==> outcome.SignedUp?
      ensures outcome.SignedUp? ==> navigateTo.value == LoginPath && errors == old(errors)
      ensures outcome.ReturnedError? ==> errors == map[General := SignUpErrorMessage(outcome.message)]
      ensures outcome.ThrewError? ==> errors == map[General := outcome.message]
      ensures outcome.ThrewOther? ==> errors == map[General := RegistrationFailedMessage]
    {
      navigateTo := None;
      match outcome {
        case SignedUp => navigateTo := Some(LoginPath);
        case ReturnedError(m) => errors := map[General := SignUpErrorMessage(m)];
        case ThrewError(m) => errors := map[General := m];
        case ThrewOther => errors := map[General := RegistrationFailedMessage];
      }
      isLoading := false;
    }
  }
}
