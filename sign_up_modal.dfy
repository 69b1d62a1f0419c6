/** The sign-up modal's submit handler (app/components/SignUpModal.tsx):
    validation with early returns, the `signUp` call, and the callbacks, in
    order. Every state update and every outside call is recorded as an event,
    so the order of effects can be stated. */
module SignUpModal {
  import opened Common

  const RequiredMessage: string := "Email and password are required"
  const LengthMessage: string := "Password must be at least 6 characters"
  const UnexpectedMessage: string := "An unexpected error occurred"
  const MinPasswordLength: int := 6

  /** What `signUp(email, password)` does: resolves without an error, resolves
      with an error message, or throws. */
  datatype SignUpOutcome = Succeeded | Rejected(message: string) | Threw

  datatype Event =
    | ErrorSet(error: Option<string>)
    | LoadingSet(loading: bool)
    | SignUpCalled(email: string, password: string)
    | SuccessCalled
    | CloseCalled

  /** The events of one submit, in order. A `return` inside the `try`
      still runs the `finally`, so a rejected sign-up turns loading off
      twice. */
  function SubmitEvents(email: string, password: string, hasOnSuccess: bool, outcome: SignUpOutcome): seq<Event> {
    var start := [ErrorSet(None), LoadingSet(true)];
    if email == "" || password == "" then start + [ErrorSet(Some(RequiredMessage)), LoadingSet(false)]
    else if |password| < MinPasswordLength then start + [ErrorSet(Some(LengthMessage)), LoadingSet(false)]
    else start + AttemptEvents(email, password, hasOnSuccess, outcome)
  }

  /** The events of the `try`/`catch`/`finally` block that follows a passed
      validation. */
  function AttemptEvents(email: string, password: string, hasOnSuccess: bool, outcome: SignUpOutcome): seq<Event> {
    [SignUpCalled(email, password)]
    + match outcome
      case Rejected(message) => [ErrorSet(Some(message)), LoadingSet(false), LoadingSet(false)]
      case Threw => [ErrorSet(Some(UnexpectedMessage)), LoadingSet(false)]
      case Succeeded => (if hasOnSuccess then [SuccessCalled] else []) + [CloseCalled, LoadingSet(false)]
  }

  /** The `error` state after replaying `events` from `e`. */
  function ErrorAfter(events: seq<Event>, e: Option<string>): Option<string> {
    if events == [] then e
    else
      var before := ErrorAfter(events[..|events| - 1], e);
      match events[|events| - 1]
      case ErrorSet(v) => v
      case _ => before
  }

  /** The `loading` state after replaying `events` from `l`. */
  function LoadingAfter(events: seq<Event>, l: bool): bool {
    if events == [] then l
    else
      var before := LoadingAfter(events[..|events| - 1], l);
      match events[|events| - 1]
      case LoadingSet(v) => v
      case _ => before
  }

  /** Events that set no error leave the error as it was. */
  lemma {:induction false} ErrorAfterSkip(a: seq<Event>, b: seq<Event>, e: Option<string>)
    requires forall i :: 0 <= i < |b| ==> !b[i].ErrorSet?
    ensures ErrorAfter(a + b, e) == ErrorAfter(a, e)
  {
    if b != [] {
      var b' := b[..|b| - 1];
      assert (a + b)[..|a + b| - 1] == a + b';
      assert (a + b)[|a + b| - 1] == b[|b| - 1];
      ErrorAfterSkip(a, b', e);
    } else {
      assert a + b == a;
    }
  }

  lemma ErrorAfterSet(a: seq<Event>, v: Option<string>, e: Option<string>)
    ensures ErrorAfter(a + [ErrorSet(v)], e) == v
  {
  }

  /** The inputs pass validation. */
  predicate Valid(email: string, password: string) {
    email != "" && password != "" && |password| >= MinPasswordLength
  }

  /** A submit starts by clearing the error and turning loading on, and ends
      with loading off, whatever happens. */
  lemma LoadingEndsOff(email: string, password: string, hasOnSuccess: bool, outcome: SignUpOutcome, l: bool)
    ensures var ev := SubmitEvents(email, password, hasOnSuccess, outcome);
            && |ev| >= 4 && ev[..2] == [ErrorSet(None), LoadingSet(true)]
            && ev[|ev| - 1] == LoadingSet(false)
            && !LoadingAfter(ev, l)
  {
  }

  /** `signUp` is called, once and with exactly the email and password,
      when validation passes, and not at all otherwise. */
  lemma SignUpCalledIffValid(email: string, password: string, hasOnSuccess: bool, outcome: SignUpOutcome)
    ensures var ev := SubmitEvents(email, password, hasOnSuccess, outcome);
            && (Valid(email, password) ==> ev[2] == SignUpCalled(email, password))
            && (forall e, p :: SignUpCalled(e, p) in ev ==> Valid(email, password) && e == email && p == password)
  {
  }

  /** The error shown after a submit: the missing-field message first, then
      the length message, then the sign-up's own message or the generic one;
      none after a success. */
  function ShownError(email: string, password: string, outcome: SignUpOutcome): Option<string> {
    if email == "" || password == "" then Some(RequiredMessage)
    else if |password| < MinPasswordLength then Some(LengthMessage)
    else match outcome
      case Rejected(message) => Some(message)
      case Threw => Some(UnexpectedMessage)
      case Succeeded => None
  }

  /** Replaying a submit's events leaves `ShownError`, whatever the error was
      before. */
  lemma ErrorShown(email: string, password: string, hasOnSuccess: bool, outcome: SignUpOutcome, e: Option<string>)
    ensures ErrorAfter(SubmitEvents(email, password, hasOnSuccess, outcome), e) == ShownError(email, password, outcome)
  {
    var start := [ErrorSet(None), LoadingSet(true)];
    var ev := SubmitEvents(email, password, hasOnSuccess, outcome);
    if email == "" || password == "" {
      ErrorAfterSet(start, Some(RequiredMessage), e);
      ErrorAfterSkip(start + [ErrorSet(Some(RequiredMessage))], [LoadingSet(false)], e);
    } else if |password| < MinPasswordLength {
      ErrorAfterSet(start, Some(LengthMessage), e);
      ErrorAfterSkip(start + [ErrorSet(Some(LengthMessage))], [LoadingSet(false)], e);
    } else {
      var called := start + [SignUpCalled(email, password)];
      match outcome
      case Rejected(message) =>
        ErrorAfterSet(called, Some(message), e);
        assert ev == called + [ErrorSet(Some(message))] + [LoadingSet(false), LoadingSet(false)];
        ErrorAfterSkip(called + [ErrorSet(Some(message))], [LoadingSet(false), LoadingSet(false)], e);
      case Threw =>
        ErrorAfterSet(called, Some(UnexpectedMessage), e);
        assert ev == called + [ErrorSet(Some(UnexpectedMessage))] + [LoadingSet(false)];
        ErrorAfterSkip(called + [ErrorSet(Some(UnexpectedMessage))], [LoadingSet(false)], e);
      case Succeeded =>
        var rest := [LoadingSet(true), SignUpCalled(email, password)]
                    + (if hasOnSuccess then [SuccessCalled] else []) + [CloseCalled, LoadingSet(false)];
        assert ev == [ErrorSet(None)] + rest;
        ErrorAfterSet([], None, e);
        ErrorAfterSkip([ErrorSet(None)], rest, e);
    }
  }

  /** The callbacks run only after a successful sign-up, `onSuccess` (when
      given) right before `onClose`. */
  lemma CallbacksOnlyOnSuccess(email: string, password: string, hasOnSuccess: bool, outcome: SignUpOutcome)
    ensures var ev := SubmitEvents(email, password, hasOnSuccess, outcome);
            && (CloseCalled in ev <==> Valid(email, password) && outcome.Succeeded?)
            && (SuccessCalled in ev <==> Valid(email, password) && outcome.Succeeded? && hasOnSuccess)
            && (SuccessCalled in ev ==> ev[3] == SuccessCalled && ev[4] == CloseCalled)
  {
  }

  class Modal {
    const hasOnSuccess: bool
    var email: string
    var password: string
    var businessName: string
    var loading: bool
    var error: Option<string>
    /** Everything the handler has done so far, oldest first. */
    var events: seq<Event>

    constructor (hasOnSuccess: bool)
      ensures this.hasOnSuccess == hasOnSuccess
      ensures email == "" && password == "" && businessName == ""
      ensures !loading && error == None && events == []
    {
      this.hasOnSuccess := hasOnSuccess;
      email, password, businessName := "", "", "";
      loading := false;
      error := None;
      events := [];
    }

    /** The three inputs; they are disabled while loading. */
    method Enter(newEmail: string, newPassword: string, newBusinessName: string)
      modifies this
      ensures loading == old(loading) && error == old(error) && events == old(events)
      ensures !old(loading) ==> email == newEmail && password == newPassword && businessName == newBusinessName
      ensures old(loading) ==> email == old(email) && password == old(password) && businessName == old(businessName)
    {
      if !loading {
        email, password, businessName := newEmail, newPassword, newBusinessName;
      }
    }

    method SetError(e: Option<string>)
      modifies this
      ensures events == old(events) + [ErrorSet(e)] && error == e
      ensures loading == old(loading) && email == old(email) && password == old(password)
      ensures businessName == old(businessName)
    {
      error := e;
      events := events + [ErrorSet(e)];
    }

    method SetLoading(l: bool)
      modifies this
      ensures events == old(events) + [LoadingSet(l)] && loading == l
      ensures error == old(error) && email == old(email) && password == old(password)
      ensures businessName == old(businessName)
    {
      loading := l;
      events := events + [LoadingSet(l)];
    }

    method Record(ev: Event)
      requires !ev.ErrorSet? && !ev.LoadingSet?
      modifies this
      ensures events == old(events) + [ev]
      ensures error == old(error) && loading == old(loading) && email == old(email)
      ensures password == old(password) && businessName == old(businessName)
    {
      events := events + [ev];
    }

    /** The `try`/`catch`/`finally` block of `handleSignUp`: the sign-up
        call, its error or the callbacks, and loading off at the end. */
    method Attempt(outcome: SignUpOutcome)
      modifies this
      ensures events == old(events) + AttemptEvents(email, password, hasOnSuccess, outcome)
      ensures !loading
      ensures error == match outcome
                       case Rejected(message) => Some(message)
                       case Threw => Some(UnexpectedMessage)
                       case Succeeded => old(error)
      ensures email == old(email) && password == old(password) && businessName == old(businessName)
    {
      Record(SignUpCalled(email, password));
      match outcome {
        case Rejected(message) =>
          SetError(Some(message));
          SetLoading(false);
        case Threw =>
          SetError(Some(UnexpectedMessage));
        case Succeeded =>
          if hasOnSuccess {
            Record(SuccessCalled);
          }
          Record(CloseCalled);
      }
      SetLoading(false);
    }

    /** `handleSignUp`. The business name is read by no step. */
    method HandleSignUp(outcome: SignUpOutcome)
      modifies this
      ensures events == old(events) + SubmitEvents(email, password, hasOnSuccess, outcome)
      ensures error == ShownError(email, password, outcome) && !loading
      ensures email == old(email) && password == old(password) && businessName == old(businessName)
    {
      SetError(None);
      SetLoading(true);
      if email == "" || password == "" {
        SetError(Some(RequiredMessage));
        SetLoading(false);
        return;
      }
      if |password| < MinPasswordLength {
        SetError(Some(LengthMessage));
        SetLoading(false);
        return;
      }
      Attempt(outcome);
    }
  }

  /** A short password is refused before `signUp`; fixing it and submitting
      again signs up, calls back and closes. */
  method ShortThenValid()
  {
    var m := new Modal(true);
    m.Enter("a@b.c", "12345", "Acme");
    m.HandleSignUp(Succeeded);
    assert m.error == Some(LengthMessage) && !m.loading;
    assert m.events == [ErrorSet(None), LoadingSet(true), ErrorSet(Some(LengthMessage)), LoadingSet(false)];
    m.Enter("a@b.c", "123456", "Acme");
    m.HandleSignUp(Succeeded);
    assert m.error == None && !m.loading;
    assert m.events[4..] == [ErrorSet(None), LoadingSet(true), SignUpCalled("a@b.c", "123456"),
                             SuccessCalled, CloseCalled, LoadingSet(false)];
  }
}
