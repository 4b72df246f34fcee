/** The signup form: an e-mail address, a password and its confirmation. */
module SignupForm {
  import opened Text
  import opened Validation
  import SubmitFlow

  datatype Values = Values(email: string, password: string, confirmPassword: string)

  const Defaults: Values := Values("", "", "")

  const EmailMessage := "Please enter a valid email"
  const MismatchMessage := "Passwords don't match"

  /** The schema: the field rules in declaration order, then the object-level refinement
      comparing the two passwords, reported on `confirmPassword`. */
  function Issues(v: Values, isEmail: string -> bool): seq<Issue> {
    EmailRule("email", v.email, isEmail, EmailMessage)
    + PasswordIssues(v.password)
    + (if v.password == v.confirmPassword then [] else [Issue("confirmPassword", MismatchMessage)])
  }

  predicate Accepts(v: Values, isEmail: string -> bool) {
    Issues(v, isEmail) == []
  }

  /** The form is accepted exactly for a valid address, a valid password and a matching confirmation. */
  lemma AcceptsIff(v: Values, isEmail: string -> bool)
    ensures Accepts(v, isEmail) <==>
      isEmail(v.email) && JsLength(v.password) >= 8 && HasUpper(v.password) && HasDigit(v.password)
      && v.password == v.confirmPassword
  {
    PasswordRule(v.password);
  }

  /** The confirmation has no rule of its own: the only issue on its path is the mismatch. */
  lemma ConfirmationOnlyMustMatch(v: Values, isEmail: string -> bool)
    ensures Issue("confirmPassword", MismatchMessage) in Issues(v, isEmail) <==> v.password != v.confirmPassword
    ensures forall k :: 0 <= k < |Issues(v, isEmail)| && Issues(v, isEmail)[k].path == "confirmPassword" ==>
      Issues(v, isEmail)[k] == Issue("confirmPassword", MismatchMessage) && v.password != v.confirmPassword
  {
    var e := EmailRule("email", v.email, isEmail, EmailMessage);
    var p := PasswordIssues(v.password);
    var m: seq<Issue> := if v.password == v.confirmPassword then [] else [Issue("confirmPassword", MismatchMessage)];
    assert Issues(v, isEmail) == e + p + m;
    forall k | 0 <= k < |e + p + m| && (e + p + m)[k].path == "confirmPassword"
      ensures (e + p + m)[k] == Issue("confirmPassword", MismatchMessage) && v.password != v.confirmPassword
    {
      if k >= |e| + |p| {
        assert (e + p + m)[k] == m[k - |e| - |p|];
      }
    }
  }

  /** The untouched form is refused, whatever the address check says: the empty password is too short. */
  lemma DefaultsRefused(isEmail: string -> bool)
    ensures !Accepts(Defaults, isEmail)
    ensures Issue("password", PasswordLengthMessage) in Issues(Defaults, isEmail)
  {
    PasswordRule(Defaults.password);
  }

  /** The submit handler runs only when the browser's check of the `type="email"` input passes
      (the form does not set `noValidate`) and then the schema accepts the values. */
  predicate CanSubmit(v: Values, isEmail: string -> bool, browserEmail: string -> bool) {
    BrowserEmailOk(v.email, browserEmail) && Accepts(v, isEmail)
  }

  /** A submission needs both checks: an address the browser refuses blocks it even when the schema takes it. */
  lemma CanSubmitIff(v: Values, isEmail: string -> bool, browserEmail: string -> bool)
    ensures CanSubmit(v, isEmail, browserEmail) <==>
      isEmail(v.email) && (v.email == "" || browserEmail(v.email))
      && JsLength(v.password) >= 8 && HasUpper(v.password) && HasDigit(v.password)
      && v.password == v.confirmPassword
    ensures v.email != "" && !browserEmail(v.email) ==> !CanSubmit(v, isEmail, browserEmail)
  {
    AcceptsIff(v, isEmail);
  }

  /** The signup component: its submit flags run the shared sequence over the browser's check and this schema. */
  method NewForm(isEmail: string -> bool, browserEmail: string -> bool) returns (form: SubmitFlow.Form<Values>)
    ensures fresh(form) && form.Valid()
    ensures form.Snapshot() == SubmitFlow.Initial(Defaults)
    ensures form.defaults == Defaults
    ensures forall v :: form.accepts(v) == CanSubmit(v, isEmail, browserEmail)
  {
    form := new SubmitFlow.Form(Defaults, v => CanSubmit(v, isEmail, browserEmail));
  }
}
