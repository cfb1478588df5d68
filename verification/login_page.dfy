/**
 * The sign-in form (frontend/src/pages/LoginPage.js): two field rules, a
 * submit that only calls the server for a valid form, and the fallback
 * message for a refused sign-in.
 */
module LoginPage {
  import opened Wrappers
  import opened FormRules
  import RegisterPage

  const PasswordRequired := "Password is required"
  const PasswordTooShort := "Password must be at least 6 characters"
  const DefaultFailure := "Login failed. Please try again."

  function PasswordRule(s: string): (r: Option<string>)
    ensures r.None? <==> |s| >= 6
    ensures r == Some(PasswordRequired) <==> s == []
  {
    if s == [] then Some(PasswordRequired)
    else if |s| < 6 then Some(PasswordTooShort)
    else None
  }

  function Rules(email: string, password: string): (r: seq<FieldResult>)
    ensures DistinctFields(r)
  {
    [FieldResult("email", EmailRule(email)), FieldResult("password", PasswordRule(password))]
  }

  /** The form is valid exactly when the e-mail matches and the password has six characters. */
  lemma ValidIff(email: string, password: string)
    ensures ErrorsOf(Rules(email, password)) == map[] <==> EmailLike(email) && |password| >= 6
  {
    var rs := Rules(email, password);
    ErrorsOfEmpty(rs);
    assert (forall i :: 0 <= i < |rs| ==> rs[i].message.None?) <==> (rs[0].message.None? && rs[1].message.None?);
  }

  /** The two rules agree with the sign-up form's e-mail rule, and any sign-up password passes here. */
  lemma SignUpCredentialsPass(fullName: string, email: string, password: string, confirm: string)
    requires ErrorsOf(RegisterPage.Rules(fullName, email, password, confirm)) == map[]
    ensures ErrorsOf(Rules(email, password)) == map[]
  {
    RegisterPage.ValidIff(fullName, email, password, confirm);
    ValidIff(email, password);
  }

  /** `error.response?.data?.detail || 'Login failed. Please try again.'`. */
  function FailureMessage(detail: Detail): (m: Detail)
    ensures DetailTruthy(m)
    ensures DetailTruthy(detail) ==> m == detail
    ensures !DetailTruthy(detail) ==> m == DString(DefaultFailure)
  {
    if DetailTruthy(detail) then detail else DString(DefaultFailure)
  }

  datatype Credentials = Credentials(email: string, password: string)

  /** A toast: the greeting, or the refusal with whatever `detail` the server sent. */
  datatype Notice = Welcome | Refused(message: Detail)

  class LoginPage {
    var email: string
    var password: string
    var loading: bool
    /** The field entries of `errors`. */
    var errors: map<string, string>
    /** `errors.submit`, kept apart because it may hold any JSON `detail`. */
    var submitError: Option<Detail>
    var calls: seq<Credentials>
    var toasts: seq<Notice>
    var location: Option<string>

    constructor ()
      ensures email == [] && password == [] && !loading && errors == map[] && submitError == None
      ensures calls == [] && toasts == [] && location == None
    {
      email, password := [], [];
      loading := false;
      errors, submitError := map[], None;
      calls, toasts := [], [];
      location := None;
    }

    method Edit(mail: string, pass: string)
      modifies this
      ensures email == mail && password == pass
      ensures loading == old(loading) && errors == old(errors) && submitError == old(submitError)
      ensures calls == old(calls) && toasts == old(toasts) && location == old(location)
    {
      email, password := mail, pass;
    }

    /** `validate`: the new map replaces the whole `errors` object, so a past submit error goes too. */
    method Validate() returns (valid: bool)
      modifies this
      ensures errors == ErrorsOf(Rules(email, password)) && submitError == None
      ensures valid <==> errors == map[]
      ensures email == old(email) && password == old(password) && loading == old(loading)
      ensures calls == old(calls) && toasts == old(toasts) && location == old(location)
    {
      var newErrors: map<string, string> := map[];
      var rs := Rules(email, password);
      ErrorsOf2(rs[0], rs[1]);
      if email == [] {
        newErrors := newErrors["email" := EmailRequired];
      } else if !EmailLike(email) {
        newErrors := newErrors["email" := EmailInvalid];
      }
      assert newErrors == Recorded(map[], rs[0]);
      if password == [] {
        newErrors := newErrors["password" := PasswordRequired];
      } else if |password| < 6 {
        newErrors := newErrors["password" := PasswordTooShort];
      }
      errors, submitError := newErrors, None;
      valid := |newErrors| == 0;
    }

    /**
     * `handleSubmit`: an invalid form stops after `validate`; a valid one
     * calls `login`, whose outcome (the refusal's `detail`) is a parameter.
     * A refusal replaces the whole error object with `{submit}`.
     */
    method HandleSubmit(outcome: Result<(), Detail>) returns (sent: bool)
      modifies this
      ensures sent <==> ErrorsOf(Rules(email, password)) == map[]
      ensures email == old(email) && password == old(password)
      ensures !sent ==> (errors == ErrorsOf(Rules(email, password)) && submitError == None
        && calls == old(calls) && toasts == old(toasts) && location == old(location) && loading == old(loading))
      ensures sent ==> calls == old(calls) + [Credentials(email, password)] && !loading && errors == map[]
      ensures sent && outcome.Ok? ==> (submitError == None && location == Some("/dashboard")
        && toasts == old(toasts) + [Welcome])
      ensures sent && outcome.Err? ==> (submitError == Some(FailureMessage(outcome.error))
        && location == old(location) && toasts == old(toasts) + [Refused(FailureMessage(outcome.error))])
    {
      sent := Validate();
      if !sent {
        return;
      }
      loading := true;
      calls := calls + [Credentials(email, password)];
      if outcome.Ok? {
        toasts := toasts + [Welcome];
        location := Some("/dashboard");
      } else {
        var message := FailureMessage(outcome.error);
        toasts := toasts + [Refused(message)];
        errors, submitError := map[], Some(message);
      }
      loading := false;
    }
  }
}
