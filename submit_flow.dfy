/** The submit sequence that the signup and login forms share, line for line:
    the submit button runs the schema; when it accepts, `isSubmitting` is set,
    a simulated request of 1500 ms follows, then `submitSuccess` is set and
    `isSubmitting` cleared, and a 2000 ms timer later calls `reset()` and clears
    `submitSuccess`. While `submitSuccess` holds, the success view replaces the form. */
module SubmitFlow {

  datatype State<V> = State(values: V, isSubmitting: bool, submitSuccess: bool)

  /** `Edit` is typing into the registered fields, `Submit` a press of the submit
      button, `Resolved` the end of the simulated request and `ResetElapsed` the
      reset timer firing. A timer event that is not pending changes nothing. */
  datatype Event<V> = Edit(values: V) | Submit | Resolved | ResetElapsed

  function Initial<V>(defaults: V): State<V> {
    State(defaults, false, false)
  }

  function Step<V>(s: State<V>, e: Event<V>, accepts: V -> bool, defaults: V): State<V> {
    match e
    case Edit(v) => if s.submitSuccess then s else s.(values := v)
    case Submit =>
      // the button is disabled while submitting and absent while the success view shows
      if s.submitSuccess || s.isSubmitting || !accepts(s.values) then s
      else s.(isSubmitting := true)
    case Resolved => if s.isSubmitting then s.(submitSuccess := true, isSubmitting := false) else s
    case ResetElapsed => if s.submitSuccess then s.(values := defaults, submitSuccess := false) else s
  }

  function Run<V>(s: State<V>, events: seq<Event<V>>, accepts: V -> bool, defaults: V): State<V>
    decreases |events|
  {
    if events == [] then s else Run(Step(s, events[0], accepts, defaults), events[1..], accepts, defaults)
  }

  /** The in-flight flag and the success flag are never both set. */
  predicate Consistent<V>(s: State<V>) {
    !(s.isSubmitting && s.submitSuccess)
  }

  lemma StepKeepsConsistent<V>(s: State<V>, e: Event<V>, accepts: V -> bool, defaults: V)
    requires Consistent(s)
    ensures Consistent(Step(s, e, accepts, defaults))
  {
  }

  lemma {:induction false} RunKeepsConsistent<V>(s: State<V>, events: seq<Event<V>>, accepts: V -> bool, defaults: V)
    requires Consistent(s)
    ensures Consistent(Run(s, events, accepts, defaults))
    decreases |events|
  {
    if events != [] {
      StepKeepsConsistent(s, events[0], accepts, defaults);
      RunKeepsConsistent(Step(s, events[0], accepts, defaults), events[1..], accepts, defaults);
    }
  }

  /** A submission starts only from values the schema accepts, and never twice at once. */
  lemma SubmitStartsOnlyWhenAccepted<V>(s: State<V>, accepts: V -> bool, defaults: V)
    ensures Step(s, Submit, accepts, defaults).isSubmitting <==> s.isSubmitting || (!s.submitSuccess && accepts(s.values))
    ensures Step(s, Submit, accepts, defaults).values == s.values
    ensures !s.isSubmitting && !accepts(s.values) ==> Step(s, Submit, accepts, defaults) == s
  {
  }

  /** Success is only reached from an in-flight submission. */
  lemma SuccessFollowsSubmission<V>(s: State<V>, e: Event<V>, accepts: V -> bool, defaults: V)
    requires !s.submitSuccess
    requires Step(s, e, accepts, defaults).submitSuccess
    ensures e == Resolved && s.isSubmitting
  {
  }

  /** An accepted form goes through in-flight and success and ends back at the defaults. */
  lemma SubmitCycle<V>(v: V, accepts: V -> bool, defaults: V)
    requires accepts(v)
    ensures Step(State(v, false, false), Submit, accepts, defaults) == State(v, true, false)
    ensures Step(State(v, true, false), Resolved, accepts, defaults) == State(v, false, true)
    ensures Step(State(v, false, true), ResetElapsed, accepts, defaults) == Initial(defaults)
    ensures Run(State(v, false, false), [Submit, Resolved, ResetElapsed], accepts, defaults) == Initial(defaults)
  {
    var evs: seq<Event<V>> := [Submit, Resolved, ResetElapsed];
    assert evs[1..] == [Resolved, ResetElapsed];
    assert evs[1..][1..] == [ResetElapsed];
    assert evs[1..][1..][1..] == [];
  }

  /** The form component: the record react-hook-form holds and the two state flags. */
  class Form<V> {
    var values: V
    var isSubmitting: bool
    var submitSuccess: bool
    const defaults: V
    const accepts: V -> bool

    function Snapshot(): State<V>
      reads this
    {
      State(values, isSubmitting, submitSuccess)
    }

    predicate Valid()
      reads this
    {
      Consistent(Snapshot())
    }

    constructor (defaults: V, accepts: V -> bool)
      ensures Valid() && Snapshot() == Initial(defaults)
      ensures this.defaults == defaults && this.accepts == accepts
    {
      this.defaults := defaults;
      this.accepts := accepts;
      values, isSubmitting, submitSuccess := defaults, false, false;
    }

    method Edit(v: V)
      requires Valid()
      modifies this
      ensures Valid() && Snapshot() == Step(old(Snapshot()), Event.Edit(v), accepts, defaults)
    {
      if !submitSuccess {
        values := v;
      }
    }

    /** `handleSubmit(onSubmit)` up to the first await; returns whether `onSubmit` ran. */
    method Submit() returns (started: bool)
      requires Valid()
      modifies this
      ensures Valid() && Snapshot() == Step(old(Snapshot()), Event.Submit, accepts, defaults)
      ensures started <==> !old(isSubmitting) && !old(submitSuccess) && accepts(values)
    {
      started := !isSubmitting && !submitSuccess && accepts(values);
      if started {
        isSubmitting := true;
      }
    }

    /** The rest of `onSubmit` after the simulated request. */
    method Resolve()
      requires Valid()
      modifies this
      ensures Valid() && Snapshot() == Step(old(Snapshot()), Resolved, accepts, defaults)
    {
      if isSubmitting {
        submitSuccess := true;
        isSubmitting := false;
      }
    }

    /** The 2000 ms timer: `reset()` and `setSubmitSuccess(false)`. */
    method ResetTimerFired()
      requires Valid()
      modifies this
      ensures Valid() && Snapshot() == Step(old(Snapshot()), ResetElapsed, accepts, defaults)
    {
      if submitSuccess {
        values := defaults;
        submitSuccess := false;
      }
    }
  }
}
