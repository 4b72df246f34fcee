/** The contact section of the home page: a three-field schema and a submit
    handler whose `finally` clears `isSubmitting` on both outcomes. */
module HomeContact {
  import opened Text
  import opened Validation

  datatype Values = Values(name: string, email: string, message: string)

  const Defaults: Values := Values("", "", "")

  const NameMessage := "Name must be at least 2 characters"
  const EmailMessage := "Please enter a valid email address"
  const MessageMessage := "Message must be at least 10 characters"

  function Issues(v: Values, isEmail: string -> bool): seq<Issue> {
    MinLength("name", v.name, 2, NameMessage)
    + EmailRule("email", v.email, isEmail, EmailMessage)
    + MinLength("message", v.message, 10, MessageMessage)
  }

  predicate Accepts(v: Values, isEmail: string -> bool) {
    Issues(v, isEmail) == []
  }

  lemma AcceptsIff(v: Values, isEmail: string -> bool)
    ensures Accepts(v, isEmail) <==> JsLength(v.name) >= 2 && isEmail(v.email) && JsLength(v.message) >= 10
  {
  }

  /** The untouched form is refused on name and message whatever the address check says. */
  lemma DefaultsRefused(isEmail: string -> bool)
    ensures !Accepts(Defaults, isEmail)
    ensures Issue("name", NameMessage) in Issues(Defaults, isEmail)
    ensures Issue("message", MessageMessage) in Issues(Defaults, isEmail)
  {
    assert Issues(Defaults, isEmail)[0] == Issue("name", NameMessage);
  }

  /** The submit handler runs only when the browser's check of the `type="email"` input passes
      (the form does not set `noValidate`) and then the schema accepts the values. */
  predicate CanSubmit(v: Values, isEmail: string -> bool, browserEmail: string -> bool) {
    BrowserEmailOk(v.email, browserEmail) && Accepts(v, isEmail)
  }

  /** A submission needs both checks: an address the schema takes but the browser refuses
      blocks it, and so does one the browser takes but the schema refuses. */
  lemma CanSubmitIff(v: Values, isEmail: string -> bool, browserEmail: string -> bool)
    ensures CanSubmit(v, isEmail, browserEmail) <==>
      JsLength(v.name) >= 2 && isEmail(v.email) && (v.email == "" || browserEmail(v.email))
      && JsLength(v.message) >= 10
    ensures v.email != "" && !browserEmail(v.email) ==> !CanSubmit(v, isEmail, browserEmail)
  {
    AcceptsIff(v, isEmail);
  }

  datatype State = State(values: Values, isSubmitting: bool, isSubmitted: bool)

  const Initial: State := State(Defaults, false, false)

  /** `Resolved(ok)` ends the `try` block: `ok` is false when it threw. `HideElapsed`
      is the 5000 ms timer that hides the thank-you message. */
  datatype Event = Edit(values: Values) | Submit | Resolved(ok: bool) | HideElapsed

  function Step(s: State, e: Event, isEmail: string -> bool, browserEmail: string -> bool): State {
    match e
    case Edit(v) => if s.isSubmitted then s else s.(values := v)
    case Submit =>
      // the button is disabled while submitting; the form is hidden while the thank-you shows
      if s.isSubmitted || s.isSubmitting || !CanSubmit(s.values, isEmail, browserEmail) then s
      else s.(isSubmitting := true)
    case Resolved(ok) =>
      if !s.isSubmitting then s
      else if ok then State(Defaults, false, true)
      else s.(isSubmitting := false)
    case HideElapsed => if s.isSubmitted then s.(isSubmitted := false) else s
  }

  predicate Consistent(s: State) {
    !(s.isSubmitting && s.isSubmitted)
  }

  lemma StepKeepsConsistent(s: State, e: Event, isEmail: string -> bool, browserEmail: string -> bool)
    requires Consistent(s)
    ensures Consistent(Step(s, e, isEmail, browserEmail))
  {
  }

  /** The end of a submission: `isSubmitting` is cleared on success and on failure;
      success shows the thank-you and resets the fields, failure keeps both as they were. */
  lemma ResolutionOutcomes(s: State, ok: bool, isEmail: string -> bool, browserEmail: string -> bool)
    requires s.isSubmitting
    ensures !Step(s, Resolved(ok), isEmail, browserEmail).isSubmitting
    ensures ok ==> Step(s, Resolved(ok), isEmail, browserEmail).isSubmitted && Step(s, Resolved(ok), isEmail, browserEmail).values == Defaults
    ensures !ok ==> Step(s, Resolved(ok), isEmail, browserEmail) == s.(isSubmitting := false)
  {
  }

  /** A submission starts only when the browser and the schema accept the fields. */
  lemma SubmitNeedsAcceptedValues(s: State, isEmail: string -> bool, browserEmail: string -> bool)
    requires !s.isSubmitting && Step(s, Submit, isEmail, browserEmail).isSubmitting
    ensures CanSubmit(s.values, isEmail, browserEmail) && !s.isSubmitted
  {
  }

  /** An accepted message goes through in-flight, the thank-you and back to the blank form. */
  lemma SuccessCycle(v: Values, isEmail: string -> bool, browserEmail: string -> bool)
    requires CanSubmit(v, isEmail, browserEmail)
    ensures Step(State(v, false, false), Submit, isEmail, browserEmail) == State(v, true, false)
    ensures Step(State(v, true, false), Resolved(true), isEmail, browserEmail) == State(Defaults, false, true)
    ensures Step(State(Defaults, false, true), HideElapsed, isEmail, browserEmail) == Initial
  {
  }

  class ContactSection {
    var values: Values
    var isSubmitting: bool
    var isSubmitted: bool
    const isEmail: string -> bool
    const browserEmail: string -> bool

    function Snapshot(): State
      reads this
    {
      State(values, isSubmitting, isSubmitted)
    }

    predicate Valid()
      reads this
    {
      Consistent(Snapshot())
    }

    constructor (isEmail: string -> bool, browserEmail: string -> bool)
      ensures Valid() && Snapshot() == Initial && this.isEmail == isEmail && this.browserEmail == browserEmail
    {
      this.isEmail := isEmail;
      this.browserEmail := browserEmail;
      values, isSubmitting, isSubmitted := Defaults, false, false;
    }

    method Edit(v: Values)
      requires Valid()
      modifies this
      ensures Valid() && Snapshot() == Step(old(Snapshot()), Event.Edit(v), isEmail, browserEmail)
    {
      if !isSubmitted {
        values := v;
      }
    }

    /** `handleSubmit(onSubmit)` up to the await. */
    method Submit() returns (started: bool)
      requires Valid()
      modifies this
      ensures Valid() && Snapshot() == Step(old(Snapshot()), Event.Submit, isEmail, browserEmail)
      ensures started <==> isSubmitting && !old(isSubmitting)
    {
      started := !isSubmitting && !isSubmitted && CanSubmit(values, isEmail, browserEmail);
      if started {
        isSubmitting := true;
      }
    }

    /** The `try`, `catch` and `finally` after the await. */
    method Resolve(ok: bool)
      requires Valid()
      modifies this
      ensures Valid() && Snapshot() == Step(old(Snapshot()), Resolved(ok), isEmail, browserEmail)
    {
      if !isSubmitting {
        return;
      }
      if ok {
        isSubmitted := true;
        values := Defaults;
      }
      isSubmitting := false;
    }

    method HideTimerFired()
      requires Valid()
      modifies this
      ensures Valid() && Snapshot() == Step(old(Snapshot()), HideElapsed, isEmail, browserEmail)
    {
      if isSubmitted {
        isSubmitted := false;
      }
    }
  }
}
