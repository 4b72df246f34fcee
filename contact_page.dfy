/** The contact page: a four-field record updated one field at a time by the
    change handler, and a submit handler that moves `submitStatus` between
    null, 'success' and 'error'. */
module ContactPage {

  datatype FormData = FormData(name: string, email: string, subject: string, message: string)

  const Empty: FormData := FormData("", "", "", "")

  /** The `name` attribute of the four inputs. */
  datatype Field = Name | Email | Subject | Message

  function Get(d: FormData, f: Field): string {
    match f
    case Name => d.name
    case Email => d.email
    case Subject => d.subject
    case Message => d.message
  }

  /** `{ ...prev, [name]: value }`. */
  function Set(d: FormData, f: Field, value: string): FormData {
    match f
    case Name => d.(name := value)
    case Email => d.(email := value)
    case Subject => d.(subject := value)
    case Message => d.(message := value)
  }

  /** The change handler writes the named field and leaves the other three as they were. */
  lemma SetChangesOneField(d: FormData, f: Field, value: string)
    ensures Get(Set(d, f, value), f) == value
    ensures forall g :: g != f ==> Get(Set(d, f, value), g) == Get(d, g)
    ensures Set(d, f, Get(d, f)) == d
  {
  }

  /** A shape fact: the four fields are the whole record. */
  lemma FieldsDetermineRecord(d: FormData, e: FormData)
    requires forall f :: Get(d, f) == Get(e, f)
    ensures d == e
  {
    assert Get(d, Name) == Get(e, Name) && Get(d, Email) == Get(e, Email);
    assert Get(d, Subject) == Get(e, Subject) && Get(d, Message) == Get(e, Message);
  }

  /** The change handler's result is the only record that has the new value in the named field
      and the old values in the other three. */
  lemma SetIsTheOneFieldChange(d: FormData, f: Field, value: string, e: FormData)
    requires Get(e, f) == value
    requires forall g :: g != f ==> Get(e, g) == Get(d, g)
    ensures e == Set(d, f, value)
  {
    SetChangesOneField(d, f, value);
    FieldsDetermineRecord(e, Set(d, f, value));
  }

  datatype SubmitStatus = Null | Success | Error

  datatype State = State(formData: FormData, isSubmitting: bool, submitStatus: SubmitStatus)

  const Initial: State := State(Empty, false, Null)

  /** The thank-you panel replaces the form once the status is 'success'. */
  predicate FormShown(s: State) {
    s.submitStatus != Success
  }

  predicate ButtonDisabled(s: State) {
    s.isSubmitting
  }

  /** The browser submits the form only when each of the four `required` inputs is
      filled and the `type="email"` input holds an address (the browser's check is a parameter). */
  predicate BrowserAllowsSubmit(d: FormData, browserEmail: string -> bool) {
    d.name != "" && d.email != "" && d.subject != "" && d.message != "" && browserEmail(d.email)
  }

  /** `Resolved(ok)` ends the `try` block, `ok` false when the request failed;
      `SendAnother` is the button of the thank-you panel. */
  datatype Event = Change(field: Field, value: string) | Submit | Resolved(ok: bool) | SendAnother

  function Step(s: State, e: Event, browserEmail: string -> bool): State {
    match e
    case Change(f, v) => if FormShown(s) then s.(formData := Set(s.formData, f, v)) else s
    case Submit =>
      if !FormShown(s) || ButtonDisabled(s) || !BrowserAllowsSubmit(s.formData, browserEmail) then s
      else s.(isSubmitting := true, submitStatus := Null)
    case Resolved(ok) =>
      if !s.isSubmitting then s
      else if ok then State(Empty, false, Success)
      else s.(isSubmitting := false, submitStatus := Error)
    case SendAnother => if s.submitStatus == Success then s.(submitStatus := Null) else s
  }

  /** Starting a submission sets the in-flight flag, clears the status and keeps the fields. */
  lemma SubmitStarts(s: State, browserEmail: string -> bool)
    requires FormShown(s) && !s.isSubmitting && BrowserAllowsSubmit(s.formData, browserEmail)
    ensures Step(s, Submit, browserEmail) == State(s.formData, true, Null)
  {
  }

  /** Success empties the four fields; failure keeps them; both clear the in-flight flag. */
  lemma ResolutionOutcomes(s: State, browserEmail: string -> bool)
    requires s.isSubmitting
    ensures Step(s, Resolved(true), browserEmail) == State(Empty, false, Success)
    ensures forall f :: Get(Step(s, Resolved(true), browserEmail).formData, f) == ""
    ensures Step(s, Resolved(false), browserEmail) == State(s.formData, false, Error)
    ensures FormShown(Step(s, Resolved(false), browserEmail))
    ensures !FormShown(Step(s, Resolved(true), browserEmail))
  {
  }

  /** "Send another message" only clears the status. */
  lemma SendAnotherOnlyClearsStatus(s: State, browserEmail: string -> bool)
    requires s.submitStatus == Success
    ensures Step(s, SendAnother, browserEmail) == s.(submitStatus := Null)
    ensures FormShown(Step(s, SendAnother, browserEmail))
  {
  }

  /** While the thank-you panel shows, typing and submitting are impossible. */
  lemma HiddenFormIgnoresInput(s: State, f: Field, v: string, browserEmail: string -> bool)
    requires !FormShown(s)
    ensures Step(s, Change(f, v), browserEmail) == s
    ensures Step(s, Submit, browserEmail) == s
  {
  }

  /** A whole successful round trip: fill the form, send it, ask for another, and the page is new again. */
  lemma RoundTrip(d: FormData, browserEmail: string -> bool)
    requires BrowserAllowsSubmit(d, browserEmail)
    ensures Step(Step(Step(State(d, false, Null), Submit, browserEmail), Resolved(true), browserEmail), SendAnother, browserEmail) == Initial
  {
  }

  class Contact {
    var formData: FormData
    var isSubmitting: bool
    var submitStatus: SubmitStatus
    const browserEmail: string -> bool

    function Snapshot(): State
      reads this
    {
      State(formData, isSubmitting, submitStatus)
    }

    constructor (browserEmail: string -> bool)
      ensures Snapshot() == Initial && this.browserEmail == browserEmail
    {
      this.browserEmail := browserEmail;
      formData, isSubmitting, submitStatus := Empty, false, Null;
    }

    method HandleChange(field: Field, value: string)
      modifies this
      ensures Snapshot() == Step(old(Snapshot()), Change(field, value), browserEmail)
    {
      if submitStatus != Success {
        formData := Set(formData, field, value);
      }
    }

    /** `handleSubmit` up to the await. */
    method HandleSubmit() returns (started: bool)
      modifies this
      ensures Snapshot() == Step(old(Snapshot()), Submit, browserEmail)
      ensures started <==> isSubmitting && !old(isSubmitting)
    {
      started := submitStatus != Success && !isSubmitting && BrowserAllowsSubmit(formData, browserEmail);
      if started {
        isSubmitting := true;
        submitStatus := Null;
      }
    }

    /** The `try`, `catch` and `finally` after the await. */
    method Resolve(ok: bool)
      modifies this
      ensures Snapshot() == Step(old(Snapshot()), Resolved(ok), browserEmail)
    {
      if !isSubmitting {
        return;
      }
      if ok {
        submitStatus := Success;
        formData := Empty;
      } else {
        submitStatus := Error;
      }
      isSubmitting := false;
    }

    method SendAnotherMessage()
      modifies this
      ensures Snapshot() == Step(old(Snapshot()), SendAnother, browserEmail)
    {
      if submitStatus == Success {
        submitStatus := Null;
      }
    }
  }
}
