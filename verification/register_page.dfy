/**
 * The sign-up form (frontend/src/pages/RegisterPage.js): four field rules
 * that report the first failing check per field, a submit that only calls
 * the server for a valid form, and the choice of the message shown when
 * the server refuses.
 */
module RegisterPage {
  import opened Wrappers
  import opened Text
  import opened FormRules
  import opened Client
  import Schemas

  const NameRequired := "Full name is required"
  const NameTooShort := "Name must be at least 2 characters"
  const PasswordRequired := "Password is required"
  const PasswordTooShort := "Password must be at least 8 characters"
  const PasswordTooWeak := "Password must contain at least one letter and one number"
  const ConfirmRequired := "Please confirm your password"
  const ConfirmMismatch := "Passwords do not match"
  const DefaultFailure := "Registration failed. Please try again."

  function FullNameRule(s: string): (r: Option<string>)
    ensures r.None? <==> |s| >= 2
    ensures r == Some(NameRequired) <==> s == []
  {
    if s == [] then Some(NameRequired)
    else if |s| < 2 then Some(NameTooShort)
    else None
  }

  function PasswordRule(s: string): (r: Option<string>)
    ensures r.None? <==> |s| >= 8 && LetterAndDigitOnOneLine(s)
    ensures r == Some(PasswordRequired) <==> s == []
    ensures r == Some(PasswordTooShort) <==> 0 < |s| < 8
  {
    if s == [] then Some(PasswordRequired)
    else if |s| < 8 then Some(PasswordTooShort)
    else if !LetterAndDigitOnOneLine(s) then Some(PasswordTooWeak)
    else None
  }

  function ConfirmRule(password: string, confirm: string): (r: Option<string>)
    ensures r.None? <==> confirm != [] && confirm == password
    ensures r == Some(ConfirmRequired) <==> confirm == []
  {
    if confirm == [] then Some(ConfirmRequired)
    else if password != confirm then Some(ConfirmMismatch)
    else None
  }

  /** The rules in the order `validate` applies them. */
  function Rules(fullName: string, email: string, password: string, confirm: string): (r: seq<FieldResult>)
    ensures DistinctFields(r)
  {
    [ FieldResult("fullName", FullNameRule(fullName)),
      FieldResult("email", EmailRule(email)),
      FieldResult("password", PasswordRule(password)),
      FieldResult("confirmPassword", ConfirmRule(password, confirm)) ]
  }

  /** The form is valid exactly when every field satisfies its rule. */
  lemma ValidIff(fullName: string, email: string, password: string, confirm: string)
    ensures ErrorsOf(Rules(fullName, email, password, confirm)) == map[] <==>
      |fullName| >= 2 && EmailLike(email) && |password| >= 8 && LetterAndDigitOnOneLine(password)
      && confirm == password
  {
    var rs := Rules(fullName, email, password, confirm);
    ErrorsOfEmpty(rs);
    assert (forall i :: 0 <= i < |rs| ==> rs[i].message.None?) <==>
      (rs[0].message.None? && rs[1].message.None? && rs[2].message.None? && rs[3].message.None?);
  }

  /** Each field is in the error map exactly when its rule fails, with that rule's first message. */
  lemma ErrorEntries(fullName: string, email: string, password: string, confirm: string)
    ensures var m := ErrorsOf(Rules(fullName, email, password, confirm));
      && ("fullName" in m <==> FullNameRule(fullName).Some?)
      && ("email" in m <==> EmailRule(email).Some?)
      && ("password" in m <==> PasswordRule(password).Some?)
      && ("confirmPassword" in m <==> ConfirmRule(password, confirm).Some?)
      && ("password" in m ==> m["password"] == PasswordRule(password).value)
      && (email == [] ==> m["email"] == EmailRequired)
      && "submit" !in m
  {
    var rs := Rules(fullName, email, password, confirm);
    ErrorsOfExact(rs);
    assert rs[0].field == "fullName" && rs[1].field == "email";
    assert rs[2].field == "password" && rs[3].field == "confirmPassword";
    assert forall i :: 0 <= i < |rs| ==> rs[i].field != "submit";
  }

  /** A form this page accepts is accepted by the server's `UserRegister` schema too. */
  lemma ClientRulesImplyServerRules(fullName: string, email: string, emailValid: bool, password: string, confirm: string)
    requires ErrorsOf(Rules(fullName, email, password, confirm)) == map[]
    requires emailValid
    ensures Schemas.ParseUserRegister(email, emailValid, password, fullName).Ok?
  {
    ValidIff(fullName, email, password, confirm);
    OneLineHasBoth(password);
  }

  /** The converse fails: a letter and a digit on separate lines pass the server and fail here. */
  lemma ServerAcceptsWhatClientRejects()
    ensures Schemas.ParseUserRegister("a@b.c", true, "abcdefg\n1", "Al").Ok?
    ensures "password" in ErrorsOf(Rules("Al", "a@b.c", "abcdefg\n1", "abcdefg\n1"))
  {
    SplitLinesRejected();
    var p := "abcdefg\n1";
    assert IsAsciiLetter(p[0]) && IsAsciiDigit(p[8]);
    ErrorEntries("Al", "a@b.c", p, p);
  }

  /** A rejected `register` call: the response's `detail` and the axios error's `message`. */
  datatype RegisterFailure = RegisterFailure(detail: Detail, message: string)

  /** The toast and `errors.submit` text for a refused registration. */
  function FailureMessage(e: RegisterFailure): (m: string)
    ensures DetailTruthy(e.detail) && e.detail.DArray? ==> m == Join(ItemTexts(e.detail.items), ". ")
    ensures DetailTruthy(e.detail) && e.detail.DObject? ==> m == e.detail.json
    ensures !DetailTruthy(e.detail) && e.message != [] ==> m == e.message
    ensures !DetailTruthy(e.detail) && e.message == [] ==> m == DefaultFailure
  {
    if DetailTruthy(e.detail) then
      match e.detail
      case DArray(items) => Join(ItemTexts(items), ". ")
      case _ => DetailText(e.detail)
    else if e.message != [] then e.message
    else DefaultFailure
  }

  /** A server `HTTPException(detail=s)` with a non-empty text reaches the user verbatim. */
  lemma StringDetailShown(s: string, message: string)
    requires s != []
    ensures FailureMessage(RegisterFailure(DString(s), message)) == s
  {
  }

  /** A single FastAPI validation error shows just its `msg`. */
  lemma SingleValidationErrorShown(msg: string, message: string)
    ensures FailureMessage(RegisterFailure(DArray([ErrorItem(Some(msg))]), message)) == msg
  {
    assert ItemTexts([ErrorItem(Some(msg))]) == [msg];
  }

  class RegisterPage {
    var fullName: string
    var email: string
    var password: string
    var confirmPassword: string
    var loading: bool
    var errors: map<string, string>
    /** The `register(email, password, fullName)` calls made, in order. */
    var calls: seq<Schemas.UserRegister>
    var toasts: seq<Toast>
    /** Where `navigate` last sent the browser. */
    var location: Option<string>

    constructor ()
      ensures fullName == [] && email == [] && password == [] && confirmPassword == []
      ensures !loading && errors == map[] && calls == [] && toasts == [] && location == None
    {
      fullName, email, password, confirmPassword := [], [], [], [];
      loading := false;
      errors := map[];
      calls, toasts := [], [];
      location := None;
    }

    /** The four `onChange` handlers. */
    method Edit(name: string, mail: string, pass: string, confirm: string)
      modifies this
      ensures fullName == name && email == mail && password == pass && confirmPassword == confirm
      ensures loading == old(loading) && errors == old(errors) && calls == old(calls)
      ensures toasts == old(toasts) && location == old(location)
    {
      fullName, email, password, confirmPassword := name, mail, pass, confirm;
    }

    /**
     * `validate`: fill a fresh error map rule by rule (each rule function
     * holds that field's `if`/`else if` chain) and store it.
     */
    method Validate() returns (valid: bool)
      modifies this`errors
      ensures errors == ErrorsOf(Rules(fullName, email, password, confirmPassword))
      ensures valid <==> errors == map[]
    {
      var name := FieldResult("fullName", FullNameRule(fullName));
      var mail := FieldResult("email", EmailRule(email));
      var pass := FieldResult("password", PasswordRule(password));
      var confirm := FieldResult("confirmPassword", ConfirmRule(password, confirmPassword));
      var newErrors: map<string, string> := map[];
      newErrors := Recorded(newErrors, name);
      newErrors := Recorded(newErrors, mail);
      newErrors := Recorded(newErrors, pass);
      newErrors := Recorded(newErrors, confirm);
      ErrorsOf4(name, mail, pass, confirm);
      errors := newErrors;
      valid := |newErrors| == 0;
    }

    /**
     * `handleSubmit`: an invalid form stops after `validate`; a valid one
     * clears the errors and calls `register`, whose outcome is a parameter.
     */
    method HandleSubmit(outcome: Result<(), RegisterFailure>) returns (sent: bool)
      modifies this`errors, this`loading, this`calls, this`toasts, this`location
      ensures var rules := ErrorsOf(Rules(fullName, email, password, confirmPassword));
        sent <==> rules == map[]
      ensures !sent ==> (errors == ErrorsOf(Rules(fullName, email, password, confirmPassword))
        && calls == old(calls) && toasts == old(toasts) && location == old(location) && loading == old(loading))
      ensures sent ==> calls == old(calls) + [Schemas.UserRegister(email, password, fullName)] && !loading
      ensures sent && outcome.Ok? ==> (errors == map[] && location == Some("/dashboard")
        && toasts == old(toasts) + [Success("Account created successfully!")])
      ensures sent && outcome.Err? ==> (errors == map["submit" := FailureMessage(outcome.error)]
        && location == old(location) && toasts == old(toasts) + [Error(FailureMessage(outcome.error))])
    {
      sent := Validate();
      if !sent {
        return;
      }
      Send(outcome);
    }

    /** The valid-form half of `handleSubmit`: the `register` call and what its outcome shows. */
    method Send(outcome: Result<(), RegisterFailure>)
      modifies this`errors, this`loading, this`calls, this`toasts, this`location
      ensures calls == old(calls) + [Schemas.UserRegister(email, password, fullName)] && !loading
      ensures outcome.Ok? ==> (errors == map[] && location == Some("/dashboard")
        && toasts == old(toasts) + [Success("Account created successfully!")])
      ensures outcome.Err? ==> (errors == map["submit" := FailureMessage(outcome.error)]
        && location == old(location) && toasts == old(toasts) + [Error(FailureMessage(outcome.error))])
    {
      loading := true;
      errors := map[];
      calls := calls + [Schemas.UserRegister(email, password, fullName)];
      if outcome.Ok? {
        toasts := toasts + [Success("Account created successfully!")];
        location := Some("/dashboard");
      } else {
        var message := FailureMessage(outcome.error);
        toasts := toasts + [Error(message)];
        errors := map["submit" := message];
      }
      loading := false;
    }
  }
}
