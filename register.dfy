/** Register: the sign-up page. It validates the four fields on the client,
    clears a field's error when the field is edited, and turns the server's
    answer into the error messages shown under the fields. */
module Register {
  import opened ResumeTypes
  import opened Text

  datatype RegisterForm = RegisterForm(name: string, email: string, password: string, passwordConfirmation: string)

  /** The four inputs, each known by its `name` attribute. */
  datatype Field = Name | Email | Password | PasswordConfirmation

  function Key(f: Field): string {
    match f
    case Name => "name"
    case Email => "email"
    case Password => "password"
    case PasswordConfirmation => "password_confirmation"
  }

  const FieldKeys: set<string> := {"name", "email", "password", "password_confirmation"}

  function Get(form: RegisterForm, f: Field): string {
    match f
    case Name => form.name
    case Email => form.email
    case Password => form.password
    case PasswordConfirmation => form.passwordConfirmation
  }

  /** `{ ...prev, [name]: value }` */
  function Set(form: RegisterForm, f: Field, value: string): (r: RegisterForm)
    ensures Get(r, f) == value
    ensures forall g :: g != f ==> Get(r, g) == Get(form, g)
  {
    match f
    case Name => form.(name := value)
    case Email => form.(email := value)
    case Password => form.(password := value)
    case PasswordConfirmation => form.(passwordConfirmation := value)
  }

  /** The unanchored pattern `\S+@\S+\.\S+`: somewhere in `s` an `@` follows a
      non-space character, and is followed by one or more non-space
      characters, a `.`, and another non-space character. */
  predicate EmailPattern(s: string) {
    exists at :: 0 < at < |s| && MatchAt(s, at)
  }

  /** The pattern matches with its `@` at index `at`. */
  predicate MatchAt(s: string, at: nat)
    requires 0 < at < |s|
  {
    s[at] == '@' && !IsSpace(s[at - 1])
    && exists dot | at + 1 < dot < |s| - 1 :: DotAt(s, at, dot)
  }

  /** ... and its `.` at index `dot`, with only non-space characters between. */
  predicate DotAt(s: string, at: nat, dot: int)
    requires at < |s|
  {
    at + 1 < dot < |s| - 1 && s[dot] == '.' && !IsSpace(s[dot + 1]) && NoSpaceIn(s, at + 1, dot)
  }

  predicate NoSpaceIn(s: string, i: nat, j: nat)
    requires i <= j <= |s|
  {
    forall m :: i <= m < j ==> !IsSpace(s[m])
  }

  /** The pattern is unanchored: text around a match does not undo it. */
  lemma EmailPatternInContext(s: string, before: string, after: string)
    requires EmailPattern(s)
    ensures EmailPattern(before + s + after)
  {
    var at :| 0 < at < |s| && MatchAt(s, at);
    var dot :| at + 1 < dot < |s| - 1 && DotAt(s, at, dot);
    var t := before + s + after;
    var b := |before|;
    assert t[b + at] == s[at] && t[b + at - 1] == s[at - 1];
    assert t[b + dot] == s[dot] && t[b + dot + 1] == s[dot + 1];
    assert NoSpaceIn(t, b + at + 1, b + dot) by {
      forall m | b + at + 1 <= m < b + dot ensures !IsSpace(t[m]) {
        assert t[m] == s[m - b];
      }
    }
    assert DotAt(t, b + at, b + dot);
    assert MatchAt(t, b + at);
  }

  /** A few addresses the pattern accepts and rejects. */
  lemma EmailPatternExamples()
    ensures EmailPattern("a@b.c")
    ensures !EmailPattern("a@b")
    ensures !EmailPattern("@b.c")
    ensures !EmailPattern("a@.c")
  {
    var s := "a@b.c";
    assert s[1] == '@' && s[3] == '.' && !IsSpace(s[0]) && !IsSpace(s[4]) && !IsSpace(s[2]);
    assert DotAt(s, 1, 3);
    assert MatchAt(s, 1);
  }

  const NameRequired := "Name is required"
  const EmailRequired := "Email is required"
  const EmailInvalid := "Email is invalid"
  const PasswordRequired := "Password is required"
  const PasswordTooShort := "Password must be at least 8 characters"
  const ConfirmationRequired := "Please confirm your password"
  const PasswordsDiffer := "Passwords do not match"

  /** The message `validateForm` gives a field, if any. A value "fails
      `trim()`" when it is blank: `Text.Trim` yields "" exactly then. */
  function FieldError(form: RegisterForm, f: Field): Option<string> {
    match f
    case Name =>
      if IsBlank(form.name) then Some(NameRequired) else None
    case Email =>
      if IsBlank(form.email) then Some(EmailRequired)
      else if !EmailPattern(form.email) then Some(EmailInvalid)
      else None
    case Password =>
      if form.password == "" then Some(PasswordRequired)
      else if |form.password| < 8 then Some(PasswordTooShort)
      else None
    case PasswordConfirmation =>
      if form.passwordConfirmation == "" then Some(ConfirmationRequired)
      else if form.password != form.passwordConfirmation then Some(PasswordsDiffer)
      else None
  }

  function Lookup(m: map<string, string>, k: string): Option<string> {
    if k in m then Some(m[k]) else None
  }

  /** `validateForm`: one message for each field that fails its check, and
      the form is valid exactly when there is none. */
  method ValidateForm(form: RegisterForm) returns (errors: map<string, string>, valid: bool)
    ensures errors.Keys <= FieldKeys
    ensures forall f :: Lookup(errors, Key(f)) == FieldError(form, f)
    ensures valid <==> errors == map[]
  {
    errors := map[];
    if IsBlank(form.name) {
      errors := errors["name" := NameRequired];
    }
    if IsBlank(form.email) {
      errors := errors["email" := EmailRequired];
    } else if !EmailPattern(form.email) {
      errors := errors["email" := EmailInvalid];
    }
    if form.password == "" {
      errors := errors["password" := PasswordRequired];
    } else if |form.password| < 8 {
      errors := errors["password" := PasswordTooShort];
    }
    if form.passwordConfirmation == "" {
      errors := errors["password_confirmation" := ConfirmationRequired];
    } else if form.password != form.passwordConfirmation {
      errors := errors["password_confirmation" := PasswordsDiffer];
    }
    forall f ensures Lookup(errors, Key(f)) == FieldError(form, f) {
      match f
      case Name =>
      case Email =>
      case Password =>
      case PasswordConfirmation =>
    }
    valid := |errors| == 0;
  }

  /** What a valid form is: a name and an email that are not blank, an email
      matching the pattern, a password of at least 8 characters, and a
      confirmation equal to it. */
  lemma ValidIff(form: RegisterForm)
    ensures (forall f :: FieldError(form, f).None?) <==>
      !IsBlank(form.name) && !IsBlank(form.email) && EmailPattern(form.email)
      && |form.password| >= 8 && form.passwordConfirmation == form.password
  {
    if forall f :: FieldError(form, f).None? {
      assert FieldError(form, Name).None? && FieldError(form, Email).None?;
      assert FieldError(form, Password).None? && FieldError(form, PasswordConfirmation).None?;
    }
  }

  /** `handleInputChange`'s error update: a field's non-empty error is
      replaced by "" (the key stays); every other entry is kept. */
  function ClearedError(errors: map<string, string>, key: string): (r: map<string, string>)
    ensures r.Keys == errors.Keys
    ensures forall k :: k in r ==> r[k] == if k == key then "" else errors[k]
  {
    if key in errors && errors[key] != "" then errors[key := ""] else errors
  }

  /** The first message of a server list; an empty list gives `undefined`,
      which shows as nothing, modelled as "". */
  function FirstMessage(messages: seq<string>): string {
    if |messages| > 0 then messages[0] else ""
  }

  /** The server's per-field lists reduced to their first messages. */
  function FirstMessages(serverErrors: map<string, seq<string>>): map<string, string> {
    map k | k in serverErrors :: FirstMessage(serverErrors[k])
  }

  /** Flattening keeps every key, and single-message lists give their message
      back unchanged. */
  lemma FirstMessagesSingletons(errors: map<string, string>)
    ensures FirstMessages(map k | k in errors :: [errors[k]]) == errors
  {
  }

  /** The loop that flattens the server's validation errors, one key at a time. */
  method FlattenServerErrors(serverErrors: map<string, seq<string>>) returns (formatted: map<string, string>)
    ensures formatted == FirstMessages(serverErrors)
  {
    formatted := map[];
    var remaining := serverErrors.Keys;
    while remaining != {}
      invariant remaining <= serverErrors.Keys
      invariant formatted.Keys == serverErrors.Keys - remaining
      invariant forall k :: k in formatted ==> formatted[k] == FirstMessage(serverErrors[k])
      decreases |remaining|
    {
      var k :| k in remaining;
      formatted := formatted[k := FirstMessage(serverErrors[k])];
      remaining := remaining - {k};
    }
  }

  /** The server's answer to the registration request, or its absence. */
  datatype Response =
    | Accepted(token: Option<string>)                                    // 2xx; `data.data.token`
    | Rejected(errors: Option<map<string, seq<string>>>, message: Option<string>)  // non-2xx body
    | NetworkFailure                                                      // the request or its parsing threw

  const NoTokenMessage := "No authentication token received from server"
  const RegistrationFailed := "Registration failed"
  const NetworkErrorMessage := "Network error. Please check your connection and try again."

  /** The errors shown once a request has been answered: none after a
      success that carries a token, otherwise a `general` message naming what
      went wrong, or the server's per-field first messages. */
  function ErrorsAfterResponse(response: Response): (r: map<string, string>)
    ensures response.Accepted? && Truthy(response.token) ==> r == map[]
    ensures response.Accepted? && !Truthy(response.token) ==> r == map["general" := NoTokenMessage]
    ensures response.Rejected? && response.errors.Some? ==>
      r.Keys == response.errors.value.Keys &&
      forall k :: k in r ==> r[k] == FirstMessage(response.errors.value[k])
    ensures response.Rejected? && response.errors.None? && Truthy(response.message) ==>
      r == map["general" := response.message.value]
    ensures response.Rejected? && response.errors.None? && !Truthy(response.message) ==>
      r == map["general" := RegistrationFailed]
    ensures response.NetworkFailure? ==> r == map["general" := NetworkErrorMessage]
  {
    match response
    case Accepted(token) => if Truthy(token) then map[] else map["general" := NoTokenMessage]
    case Rejected(errors, message) =>
      if errors.Some? then FirstMessages(errors.value)
      else map["general" := if Truthy(message) then message.value else RegistrationFailed]
    case NetworkFailure => map["general" := NetworkErrorMessage]
  }

  /** No error is left on the page exactly after a success that carries a
      token, or after a rejection whose `errors` object is empty (`{}` is
      truthy, so it replaces the errors with nothing). */
  lemma NoErrorsShown(response: Response)
    ensures ErrorsAfterResponse(response) == map[] <==>
      (response.Accepted? && Truthy(response.token)) ||
      (response.Rejected? && response.errors == Some(map[]))
  {
    if response.Rejected? && response.errors.Some? && ErrorsAfterResponse(response) == map[] {
      assert response.errors.value.Keys == {};
    }
    if (response.Rejected? && response.errors.None?) || response.NetworkFailure? ||
       (response.Accepted? && !Truthy(response.token)) {
      assert "general" in ErrorsAfterResponse(response);
    }
  }

  class RegisterPage {
    var formData: RegisterForm
    var errors: map<string, string>
    var isLoading: bool
    var isSuccess: bool

    constructor()
      ensures formData == RegisterForm("", "", "", "") && errors == map[] && !isLoading && !isSuccess
    {
      formData := RegisterForm("", "", "", "");
      errors := map[];
      isLoading := false;
      isSuccess := false;
    }

    /** Typing into a field stores the value and clears only that field's error. */
    method HandleInputChange(f: Field, value: string)
      modifies this
      ensures formData == Set(old(formData), f, value)
      ensures errors == ClearedError(old(errors), Key(f))
      ensures isLoading == old(isLoading) && isSuccess == old(isSuccess)
    {
      formData := Set(formData, f, value);
      if Key(f) in errors && errors[Key(f)] != "" {
        errors := errors[Key(f) := ""];
      }
    }

    /** `handleSubmit`, with the server's answer as a parameter. An invalid
      form shows its validation errors and sends nothing. Otherwise the
      request is sent, the errors become those of the answer, an accepted
      request switches to the success screen (even when no token came back),
      and the loading flag is lowered again. */
    method HandleSubmit(response: Response) returns (sent: bool)
      modifies this
      ensures formData == old(formData)
      ensures !sent ==> errors.Keys <= FieldKeys && forall f :: Lookup(errors, Key(f)) == FieldError(old(formData), f)
      ensures !sent ==> errors != map[] && isLoading == old(isLoading) && isSuccess == old(isSuccess)
      ensures sent ==> (forall f :: FieldError(old(formData), f).None?)
      ensures sent ==> errors == ErrorsAfterResponse(response) && !isLoading
      ensures sent ==> isSuccess == (response.Accepted? || old(isSuccess))
    {
      var validationErrors, valid := ValidateForm(formData);
      errors := validationErrors;
      if !valid {
        return false;
      }
      assert forall f :: FieldError(formData, f).None? by {
        forall f ensures FieldError(formData, f).None? {
          assert Lookup(validationErrors, Key(f)) == FieldError(formData, f);
        }
      }
      isLoading := true;
      if response.Accepted? {
        isSuccess := true;
      }
      errors := ErrorsAfterResponse(response);
      isLoading := false;
      return true;
    }
  }
}
