/** The login form: name, age, gender, e-mail address and password. */
module LoginForm {
  import opened Text
  import opened Validation
  import SubmitFlow

  /** What the number input delivers with `valueAsNumber`: nothing yet (the default
      `undefined`), `NaN` for an empty or unparsable entry, or a number. */
  datatype AgeInput = Missing | NotANumber | Number(value: real)

  datatype Values = Values(name: string, age: AgeInput, gender: string, email: string, password: string)

  const Defaults: Values := Values("", Missing, "", "", "")

  /** The values the three gender radio buttons submit. */
  const GenderChoices: seq<string> := ["male", "female", "other"]

  const NameMessage := "Name must be at least 2 characters"
  const AgeMinMessage := "You must be at least 18 years old"
  const AgeMaxMessage := "Age must be less than 100"
  const GenderMessage := "Please select a gender"
  const EmailMessage := "Please enter a valid email"
  /** The schema library's own messages for a value that is not a number. */
  const RequiredMessage := "Required"
  const NanMessage := "Expected number, received nan"

  /** `z.number().min(18).max(100)`: a non-number fails the type check alone; a number runs both bounds. */
  function AgeIssues(a: AgeInput): seq<Issue> {
    match a
    case Missing => [Issue("age", RequiredMessage)]
    case NotANumber => [Issue("age", NanMessage)]
    case Number(x) =>
      (if x < 18.0 then [Issue("age", AgeMinMessage)] else [])
      + (if x > 100.0 then [Issue("age", AgeMaxMessage)] else [])
  }

  function Issues(v: Values, isEmail: string -> bool): seq<Issue> {
    MinLength("name", v.name, 2, NameMessage)
    + AgeIssues(v.age)
    + MinLength("gender", v.gender, 1, GenderMessage)
    + EmailRule("email", v.email, isEmail, EmailMessage)
    + PasswordIssues(v.password)
  }

  predicate Accepts(v: Values, isEmail: string -> bool) {
    Issues(v, isEmail) == []
  }

  predicate AgeOk(a: AgeInput) {
    AgeIssues(a) == []
  }

  /** The age is accepted exactly for a number from 18 to 100, both ends included
      (the message speaks of "less than 100", the rule admits 100). */
  lemma AgeRange(a: AgeInput)
    ensures AgeOk(a) <==> a.Number? && 18.0 <= a.value <= 100.0
    ensures AgeOk(Number(100.0)) && AgeOk(Number(18.0))
    ensures !AgeOk(Number(17.5)) && !AgeOk(Number(100.5))
  {
  }

  /** The form is accepted exactly when every field rule holds. */
  lemma AcceptsIff(v: Values, isEmail: string -> bool)
    ensures Accepts(v, isEmail) <==>
      JsLength(v.name) >= 2 && AgeOk(v.age) && JsLength(v.gender) >= 1 && isEmail(v.email)
      && JsLength(v.password) >= 8 && HasUpper(v.password) && HasDigit(v.password)
  {
    PasswordRule(v.password);
  }

  /** Every radio value passes the gender rule; the untouched empty value does not. */
  lemma GenderChoicesAccepted()
    ensures forall g :: g in GenderChoices ==> MinLength("gender", g, 1, GenderMessage) == []
    ensures MinLength("gender", "", 1, GenderMessage) == [Issue("gender", GenderMessage)]
  {
  }

  /** The untouched form is refused, and it already fails on name, age, gender and password. */
  lemma DefaultsRefused(isEmail: string -> bool)
    ensures !Accepts(Defaults, isEmail)
    ensures Issue("name", NameMessage) in Issues(Defaults, isEmail)
    ensures Issue("age", RequiredMessage) in Issues(Defaults, isEmail)
    ensures Issue("gender", GenderMessage) in Issues(Defaults, isEmail)
    ensures Issue("password", PasswordLengthMessage) in Issues(Defaults, isEmail)
  {
    PasswordRule(Defaults.password);
    var i := Issues(Defaults, isEmail);
    assert i[0] == Issue("name", NameMessage);
    assert i[1] == Issue("age", RequiredMessage);
    assert i[2] == Issue("gender", GenderMessage);
  }

  /** The browser's check of the `type="number"` input, which has no `step` and no `min`: the
      default step of 1 makes a fractional number a step mismatch. An empty input passes; an
      unparsable entry, which the browser also refuses, is refused by the schema anyway. */
  predicate BrowserAgeOk(a: AgeInput) {
    a.Number? ==> a.value.Floor as real == a.value
  }

  /** The submit handler runs only when the browser's checks of the age and e-mail inputs pass
      (the form does not set `noValidate`) and then the schema accepts the values. */
  predicate CanSubmit(v: Values, isEmail: string -> bool, browserEmail: string -> bool) {
    BrowserAgeOk(v.age) && BrowserEmailOk(v.email, browserEmail) && Accepts(v, isEmail)
  }

  /** A submission needs a whole age from 18 to 100, an address both checks take, and the other field rules. */
  lemma CanSubmitIff(v: Values, isEmail: string -> bool, browserEmail: string -> bool)
    ensures CanSubmit(v, isEmail, browserEmail) <==>
      JsLength(v.name) >= 2 && v.age.Number? && 18.0 <= v.age.value <= 100.0
      && v.age.value.Floor as real == v.age.value
      && JsLength(v.gender) >= 1 && isEmail(v.email) && (v.email == "" || browserEmail(v.email))
      && JsLength(v.password) >= 8 && HasUpper(v.password) && HasDigit(v.password)
  {
    AcceptsIff(v, isEmail);
    AgeRange(v.age);
  }

  /** An age of 50.5 satisfies the schema's bounds, yet the browser stops the submission. */
  lemma FractionalAgeBlocked(v: Values, isEmail: string -> bool, browserEmail: string -> bool)
    requires v.age == Number(50.5)
    ensures AgeOk(v.age)
    ensures !CanSubmit(v, isEmail, browserEmail)
  {
    assert (50.5).Floor == 50;
  }

  /** The login component: its submit flags run the shared sequence over the browser's checks and this schema. */
  method NewForm(isEmail: string -> bool, browserEmail: string -> bool) returns (form: SubmitFlow.Form<Values>)
    ensures fresh(form) && form.Valid()
    ensures form.Snapshot() == SubmitFlow.Initial(Defaults)
    ensures form.defaults == Defaults
    ensures forall v :: form.accepts(v) == CanSubmit(v, isEmail, browserEmail)
  {
    form := new SubmitFlow.Form(Defaults, v => CanSubmit(v, isEmail, browserEmail));
  }
}
