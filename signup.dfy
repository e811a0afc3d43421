/**
  The sign-up form: four text fields, the terms checkbox, the per-field
  error messages that `validateForm` computes, and the loading flag that a
  valid submit raises until its simulated request finishes.
 */
module SignUp {
  import opened Wrappers
  import opened Text

  datatype FormData = FormData(name: string, email: string, password: string, confirmPassword: string)

  /** The text inputs, by their `name` attribute. */
  datatype Field = Name | Email | Password | ConfirmPassword

  /** The keys of the error map: the four inputs' names and `terms`. */
  datatype ErrorKey = NameKey | EmailKey | PasswordKey | ConfirmPasswordKey | TermsKey

  function KeyName(k: ErrorKey): string {
    match k
    case NameKey => "name"
    case EmailKey => "email"
    case PasswordKey => "password"
    case ConfirmPasswordKey => "confirmPassword"
    case TermsKey => "terms"
  }

  /** The entry an input's own error sits under; the terms box has none. */
  function FieldKey(f: Field): (key: ErrorKey)
    ensures key != TermsKey
  {
    match f
    case Name => NameKey
    case Email => EmailKey
    case Password => PasswordKey
    case ConfirmPassword => ConfirmPasswordKey
  }

  lemma FieldKeysDistinct(f: Field, g: Field)
    ensures FieldKey(f) == FieldKey(g) <==> f == g
    ensures KeyName(FieldKey(f)) == KeyName(FieldKey(g)) <==> f == g
  {
  }

  function Get(d: FormData, f: Field): string {
    match f
    case Name => d.name
    case Email => d.email
    case Password => d.password
    case ConfirmPassword => d.confirmPassword
  }

  /** `{...prev, [name]: value}`. */
  function With(d: FormData, f: Field, value: string): (r: FormData)
    ensures Get(r, f) == value
    ensures forall g :: g != f ==> Get(r, g) == Get(d, g)
  {
    match f
    case Name => d.(name := value)
    case Email => d.(email := value)
    case Password => d.(password := value)
    case ConfirmPassword => d.(confirmPassword := value)
  }

  /** `/\S+@\S+\.\S+/.test(e)`: somewhere in `e`, a non-whitespace character,
      an `@`, one or more non-whitespace characters, a `.` and another
      non-whitespace character. The pattern is not anchored. */
  predicate MatchesEmailPattern(e: string) {
    exists at, dot | 0 < at && at + 1 < dot && dot + 1 < |e| ::
      && e[at] == '@' && e[dot] == '.'
      && !IsWhitespace(e[at - 1])
      && NoWhitespaceIn(e, at + 1, dot)
      && !IsWhitespace(e[dot + 1])
  }

  /** `e[lo..hi]` is made of `\S` characters. */
  predicate NoWhitespaceIn(e: string, lo: int, hi: int)
    requires 0 <= lo <= hi <= |e|
  {
    forall m | lo <= m < hi :: !IsWhitespace(e[m])
  }

  /** A blank email can never match the pattern, whose `@` is not whitespace. */
  lemma BlankNeverMatches(e: string)
    requires IsBlank(e)
    ensures !MatchesEmailPattern(e)
  {
    forall at | 0 <= at < |e| ensures e[at] != '@' {
      assert IsWhitespace(e[at]);
    }
  }

  lemma SimpleEmailMatches()
    ensures MatchesEmailPattern("a@b.co")
  {
    var e := "a@b.co";
    assert e[1] == '@' && e[3] == '.' && !IsWhitespace(e[0]) && !IsWhitespace(e[2]) && !IsWhitespace(e[4]);
  }

  /** Without a dot after the `@` the pattern fails. */
  lemma NoDotFails()
    ensures !MatchesEmailPattern("a@b")
  {
  }

  /** The pattern is searched for anywhere, so text around a valid address,
      spaces included, still passes. */
  lemma SurroundedEmailMatches()
    ensures MatchesEmailPattern("my mail a@b.co")
  {
    var e := "my mail a@b.co";
    assert e[9] == '@' && e[11] == '.' && !IsWhitespace(e[8]) && !IsWhitespace(e[10]) && !IsWhitespace(e[12]);
  }

  /** The message each check attaches to its field, if any. A name or email
      whose `trim()` is empty is missing. */
  function NameError(d: FormData): (r: Option<string>)
    ensures r.None? <==> !IsBlank(d.name)
    ensures r.Some? ==> r.value == "Name is required"
  {
    if IsBlank(d.name) then Some("Name is required") else None
  }

  /** A missing email is reported as missing, never as malformed. */
  function EmailError(d: FormData): (r: Option<string>)
    ensures r.None? <==> !IsBlank(d.email) && MatchesEmailPattern(d.email)
    ensures IsBlank(d.email) ==> r == Some("Email is required")
    ensures !IsBlank(d.email) && !MatchesEmailPattern(d.email) ==> r == Some("Please enter a valid email")
  {
    if IsBlank(d.email) then Some("Email is required")
    else if !MatchesEmailPattern(d.email) then Some("Please enter a valid email")
    else None
  }

  /** An empty password is reported as missing, never as too short. */
  function PasswordError(d: FormData): (r: Option<string>)
    ensures r.None? <==> |d.password| >= 6
    ensures d.password == "" ==> r == Some("Password is required")
    ensures 0 < |d.password| < 6 ==> r == Some("Password must be at least 6 characters")
  {
    if d.password == "" then Some("Password is required")
    else if |d.password| < 6 then Some("Password must be at least 6 characters")
    else None
  }

  /** The confirmation must repeat the password exactly. */
  function ConfirmError(d: FormData): (r: Option<string>)
    ensures r.None? <==> d.password == d.confirmPassword
    ensures r.Some? ==> r.value == "Passwords do not match"
  {
    if d.password != d.confirmPassword then Some("Passwords do not match") else None
  }

  /** The terms must be accepted. */
  function TermsError(acceptTerms: bool): (r: Option<string>)
    ensures r.None? <==> acceptTerms
    ensures r.Some? ==> r.value == "Please accept the terms and conditions"
  {
    if !acceptTerms then Some("Please accept the terms and conditions") else None
  }

  /** Adds `key: message` when there is a message. */
  function AddError(errors: map<ErrorKey, string>, key: ErrorKey, message: Option<string>)
    : (r: map<ErrorKey, string>)
    ensures message.Some? ==> r == errors[key := message.value]
    ensures message.None? ==> r == errors
  {
    if message.Some? then errors[key := message.value] else errors
  }

  /** `errors` holds `message` under `key` when there is one, and no entry
      for `key` otherwise. */
  predicate HasEntry(errors: map<ErrorKey, string>, key: ErrorKey, message: Option<string>) {
    (key in errors <==> message.Some?) && (key in errors ==> errors[key] == message.value)
  }

  /** The map with the messages that are present, each under its key. */
  function CollectErrors(name: Option<string>, email: Option<string>, password: Option<string>,
                         confirm: Option<string>, terms: Option<string>): (errors: map<ErrorKey, string>)
    ensures HasEntry(errors, NameKey, name)
    ensures HasEntry(errors, EmailKey, email)
    ensures HasEntry(errors, PasswordKey, password)
    ensures HasEntry(errors, ConfirmPasswordKey, confirm)
    ensures HasEntry(errors, TermsKey, terms)
  {
    var e0: map<ErrorKey, string> := map[];
    var e1 := AddError(e0, NameKey, name);
    var e2 := AddError(e1, EmailKey, email);
    var e3 := AddError(e2, PasswordKey, password);
    var e4 := AddError(e3, ConfirmPasswordKey, confirm);
    AddError(e4, TermsKey, terms)
  }

  /** No entry at all exactly when every message is absent. */
  lemma CollectEmptyIff(name: Option<string>, email: Option<string>, password: Option<string>,
                        confirm: Option<string>, terms: Option<string>)
    ensures CollectErrors(name, email, password, confirm, terms) == map[] <==>
              name.None? && email.None? && password.None? && confirm.None? && terms.None?
  {
    var errors := CollectErrors(name, email, password, confirm, terms);
    if errors != map[] {
      var k :| k in errors;
      assert k.NameKey? || k.EmailKey? || k.PasswordKey? || k.ConfirmPasswordKey? || k.TermsKey?;
    }
  }

  /** The error map `validateForm` computes: one entry for each failing
      check, under its field's key, with that check's message. */
  function FormErrors(d: FormData, acceptTerms: bool): (errors: map<ErrorKey, string>)
    ensures HasEntry(errors, NameKey, NameError(d))
    ensures HasEntry(errors, EmailKey, EmailError(d))
    ensures HasEntry(errors, PasswordKey, PasswordError(d))
    ensures HasEntry(errors, ConfirmPasswordKey, ConfirmError(d))
    ensures HasEntry(errors, TermsKey, TermsError(acceptTerms))
  {
    CollectErrors(NameError(d), EmailError(d), PasswordError(d), ConfirmError(d), TermsError(acceptTerms))
  }

  /** The form is valid exactly when every field passes its check. */
  lemma ValidIff(d: FormData, acceptTerms: bool)
    ensures FormErrors(d, acceptTerms) == map[] <==>
              && !IsBlank(d.name)
              && !IsBlank(d.email) && MatchesEmailPattern(d.email)
              && |d.password| >= 6
              && d.password == d.confirmPassword
              && acceptTerms
  {
    CollectEmptyIff(NameError(d), EmailError(d), PasswordError(d), ConfirmError(d), TermsError(acceptTerms));
  }

  /** "Required" wins over the format and length messages. */
  lemma RequiredTakesPrecedence(d: FormData, acceptTerms: bool)
    ensures IsBlank(d.email) ==> FormErrors(d, acceptTerms)[EmailKey] == "Email is required"
    ensures d.password == "" ==> FormErrors(d, acceptTerms)[PasswordKey] == "Password is required"
  {
  }

  /** The confirmation check compares the two fields whatever the other
      password checks say: an empty password with a non-empty confirmation
      fails both. */
  lemma MismatchIndependent(d: FormData, acceptTerms: bool)
    requires d.password == "" && d.confirmPassword != ""
    ensures FormErrors(d, acceptTerms)[PasswordKey] == "Password is required"
    ensures FormErrors(d, acceptTerms)[ConfirmPasswordKey] == "Passwords do not match"
  {
  }

  /** Six characters are enough. */
  lemma SixCharactersPass(d: FormData, acceptTerms: bool)
    requires |d.password| == 6
    ensures PasswordKey !in FormErrors(d, acceptTerms)
  {
  }

  class SignUpForm {
    var formData: FormData
    var acceptTerms: bool
    var isLoading: bool
    var errors: map<ErrorKey, string>
    /** Simulated requests whose 1.5-second timer has not fired yet. */
    var pendingRequests: nat

    ghost predicate Valid()
      reads this
    {
      isLoading ==> pendingRequests > 0
    }

    constructor ()
      ensures Valid()
      ensures formData == FormData("", "", "", "") && !acceptTerms && !isLoading
      ensures errors == map[] && pendingRequests == 0
    {
      formData := FormData("", "", "", "");
      acceptTerms := false;
      isLoading := false;
      errors := map[];
      pendingRequests := 0;
    }

    /** `handleInputChange`: stores the value and blanks that field's error
        message when it has a non-empty one. */
    method InputChange(f: Field, value: string)
      requires Valid()
      modifies this
      ensures Valid()
      ensures formData == With(old(formData), f, value)
      ensures var key := FieldKey(f);
              errors == if key in old(errors) && old(errors)[key] != "" then old(errors)[key := ""] else old(errors)
      ensures forall k :: k != FieldKey(f) && k in old(errors) ==> k in errors && errors[k] == old(errors)[k]
      ensures acceptTerms == old(acceptTerms) && isLoading == old(isLoading)
      ensures pendingRequests == old(pendingRequests)
    {
      formData := With(formData, f, value);
      var key := FieldKey(f);
      if key in errors && errors[key] != "" {
        errors := errors[key := ""];
      }
    }

    /** The hidden checkbox's `onChange`. */
    method SetAcceptTerms(checked: bool)
      requires Valid()
      modifies this
      ensures Valid()
      ensures acceptTerms == checked
      ensures formData == old(formData) && errors == old(errors) && isLoading == old(isLoading)
      ensures pendingRequests == old(pendingRequests)
    {
      acceptTerms := checked;
    }

    /** A click on the drawn checkbox. */
    method ToggleTerms()
      requires Valid()
      modifies this
      ensures Valid()
      ensures acceptTerms == !old(acceptTerms)
      ensures formData == old(formData) && errors == old(errors) && isLoading == old(isLoading)
      ensures pendingRequests == old(pendingRequests)
    {
      acceptTerms := !acceptTerms;
    }

    /** `validateForm`: runs the five checks in order, adding each failing
        one's message to a fresh map, and replaces the old map with it. */
    method ValidateForm() returns (ok: bool)
      requires Valid()
      modifies this
      ensures Valid()
      ensures errors == FormErrors(formData, acceptTerms)
      ensures ok <==> errors == map[]
      ensures formData == old(formData) && acceptTerms == old(acceptTerms)
      ensures isLoading == old(isLoading) && pendingRequests == old(pendingRequests)
    {
      var d := formData;
      var newErrors: map<ErrorKey, string> := map[];
      newErrors := AddError(newErrors, NameKey, NameError(d));
      newErrors := AddError(newErrors, EmailKey, EmailError(d));
      newErrors := AddError(newErrors, PasswordKey, PasswordError(d));
      newErrors := AddError(newErrors, ConfirmPasswordKey, ConfirmError(d));
      newErrors := AddError(newErrors, TermsKey, TermsError(acceptTerms));
      errors := newErrors;
      ok := |newErrors| == 0;
    }

    /** `handleSubmit`: only a valid form starts the simulated request. */
    method HandleSubmit()
      requires Valid()
      modifies this
      ensures Valid()
      ensures errors == FormErrors(formData, acceptTerms)
      ensures errors == map[] ==> isLoading && pendingRequests == old(pendingRequests) + 1
      ensures errors != map[] ==> isLoading == old(isLoading) && pendingRequests == old(pendingRequests)
      ensures formData == old(formData) && acceptTerms == old(acceptTerms)
    {
      var ok := ValidateForm();
      if !ok {
        return;
      }
      isLoading := true;
      pendingRequests := pendingRequests + 1;
    }

    /** The simulated request's timer fires. */
    method RequestFinished()
      requires Valid() && pendingRequests > 0
      modifies this
      ensures Valid()
      ensures !isLoading && pendingRequests == old(pendingRequests) - 1
      ensures formData == old(formData) && acceptTerms == old(acceptTerms) && errors == old(errors)
    {
      isLoading := false;
      pendingRequests := pendingRequests - 1;
    }

    /** The submit button is disabled while loading. */
    predicate SubmitDisabled()
      reads this
    {
      isLoading
    }
  }
}
