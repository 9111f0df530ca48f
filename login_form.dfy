/** The login form: the trimmed email field, the submit handler with its
    empty-credential check and its branching on the outcome of the sign-in
    flow, and the name prompt the flow may open (a one-shot promise settled
    by the sign-up dialog's confirm or cancel handler).

    The store members the form calls (`reset`, `setError`, `error`,
    `signInOrSignUpFlow`) are not defined in the store this model covers:
    the submit handler takes the flow's outcome as a parameter and returns,
    in order, the calls it makes, without saying what those calls do. */
module LoginForm {
  import opened Common
  import opened Text

  /** The store's `error` value: a string or an object with a message. */
  datatype StoreError = StringError(text: string) | ObjectError(message: string)

  /** `if (currentError)`: an object is truthy, a string only when it is not
      empty. */
  predicate ErrorTruthy(e: Option<StoreError>)
  {
    e.Some? && (e.value.ObjectError? || e.value.text != "")
  }

  /** `typeof e === "string" ? e : e.message`. */
  function ErrorText(e: StoreError): string
  {
    match e
    case StringError(text) => text
    case ObjectError(message) => message
  }

  /** A value the flow may throw: an `Error` with its message, or anything
      else. */
  datatype Thrown = ErrorInstance(message: string) | OtherValue

  /** How the awaited flow ended: it returned, leaving the store's error as
      given, or it threw. */
  datatype FlowOutcome = Returned(storeError: Option<StoreError>) | Threw(thrown: Thrown)

  /** The calls the submit handler makes, in order. */
  datatype Effect =
    | Reset
    | SetError(message: string)
    | ToastError(message: string)
    | ToastSuccess(message: string)
    | RunFlow(email: string, password: string)
    | Navigate(to: string)
    | LogError(message: string)

  const RequiredMessage := "Email and password are required."
  const FallbackMessage := "Authentication failed. Please try again."

  /** `err instanceof Error ? err.message : fallback`. */
  function ThrownMessage(t: Thrown): (m: string)
    ensures t.ErrorInstance? ==> m == t.message
    ensures t.OtherValue? ==> m == FallbackMessage
  {
    if t.ErrorInstance? then t.message else FallbackMessage
  }

  /** `!email || !password` is false. */
  predicate CredentialsGiven(email: string, password: string)
  {
    email != "" && password != ""
  }

  /** Since the email field stores its trimmed input, an email typed as
      white space only counts as missing. */
  lemma BlankEmailIsMissing(typed: string, password: string)
    ensures CredentialsGiven(Trim(typed), password) <==> !Blank(typed) && password != ""
  {
    TrimEmptyIffBlank(typed);
  }

  /** The state of the promise `promptForName` returns. */
  datatype Prompt = NotAsked | Waiting | Settled(name: Option<string>)

  class Form {
    var email: string
    var password: string
    var showSignUpDialog: bool
    /** `signUpHandlers !== null`: set by the first prompt, never cleared. */
    var handlersInstalled: bool
    var prompt: Prompt

    constructor ()
      ensures email == "" && password == "" && !showSignUpDialog && !handlersInstalled && prompt == NotAsked
    {
      email, password := "", "";
      showSignUpDialog, handlersInstalled := false, false;
      prompt := NotAsked;
    }

    /** The email input's `onChange`: stores the trimmed text. */
    method SetEmail(typed: string)
      modifies this
      ensures email == Trim(typed)
      ensures !Blank(typed) <==> email != ""
      ensures password == old(password) && showSignUpDialog == old(showSignUpDialog)
      ensures handlersInstalled == old(handlersInstalled) && prompt == old(prompt)
    {
      email := Trim(typed);
      TrimEmptyIffBlank(typed);
    }

    method SetPassword(typed: string)
      modifies this
      ensures password == typed
      ensures email == old(email) && showSignUpDialog == old(showSignUpDialog)
      ensures handlersInstalled == old(handlersInstalled) && prompt == old(prompt)
    {
      password := typed;
    }

    /** `showSignUpDialog && signUpHandlers`: the dialog is on screen only
      while it is open and a prompt has installed its handlers. */
    predicate DialogShown()
      reads this
      ensures DialogShown() ==> showSignUpDialog && handlersInstalled
      ensures !showSignUpDialog ==> !DialogShown()
    {
      showSignUpDialog && handlersInstalled
    }

    /** `promptForName`: opens the dialog and installs the handlers of a new
      pending promise. */
    method PromptForName()
      modifies this
      ensures DialogShown() && prompt == Waiting
      ensures email == old(email) && password == old(password)
    {
      showSignUpDialog := true;
      handlersInstalled := true;
      prompt := Waiting;
    }

    /** The installed `handleConfirm(name)`: closes the dialog and resolves
      the promise with the name, unless it is already settled. */
    method ConfirmName(name: string)
      modifies this
      ensures !showSignUpDialog && !DialogShown()
      ensures old(prompt) == Waiting ==> prompt == Settled(Some(name))
      ensures old(prompt) != Waiting ==> prompt == old(prompt)
      ensures handlersInstalled == old(handlersInstalled)
      ensures email == old(email) && password == old(password)
    {
      showSignUpDialog := false;
      if prompt == Waiting {
        prompt := Settled(Some(name));
      }
    }

    /** The installed `handleCancel()`: closes the dialog and resolves the
      promise with `null`, unless it is already settled. */
    method CancelName()
      modifies this
      ensures !showSignUpDialog && !DialogShown()
      ensures old(prompt) == Waiting ==> prompt == Settled(None)
      ensures old(prompt) != Waiting ==> prompt == old(prompt)
      ensures handlersInstalled == old(handlersInstalled)
      ensures email == old(email) && password == old(password)
    {
      showSignUpDialog := false;
      if prompt == Waiting {
        prompt := Settled(None);
      }
    }

    /** `handleSubmit`, given how the awaited flow ends. It always resets
      first. Without both credentials it reports the required-fields error
      and stops, never running the flow. Otherwise it runs the flow; when
      the flow returns with a truthy store error it shows that error, when
      it returns without one it greets the user and navigates home, and when
      it throws it logs, stores and shows the thrown message. */
    method HandleSubmit(outcome: FlowOutcome) returns (effects: seq<Effect>)
      ensures |effects| >= 1 && effects[0] == Reset
      ensures forall k :: 1 <= k < |effects| ==> effects[k] != Reset
      ensures !CredentialsGiven(email, password) ==>
        effects == [Reset, SetError(RequiredMessage), ToastError(RequiredMessage)]
      ensures RunFlow(email, password) in effects <==> CredentialsGiven(email, password)
      ensures CredentialsGiven(email, password) ==> |effects| >= 2 && effects[1] == RunFlow(email, password)
      ensures Navigate("/") in effects <==>
        CredentialsGiven(email, password) && outcome.Returned? && !ErrorTruthy(outcome.storeError)
      ensures CredentialsGiven(email, password) && outcome.Returned? && ErrorTruthy(outcome.storeError) ==>
        effects == [Reset, RunFlow(email, password), ToastError(ErrorText(outcome.storeError.value))]
      ensures CredentialsGiven(email, password) && outcome.Returned? && !ErrorTruthy(outcome.storeError) ==>
        effects == [Reset, RunFlow(email, password), ToastSuccess("Logged in as " + email), Navigate("/")]
      ensures CredentialsGiven(email, password) && outcome.Threw? ==>
        effects == [Reset, RunFlow(email, password), LogError(ThrownMessage(outcome.thrown)),
                    SetError(ThrownMessage(outcome.thrown)), ToastError(ThrownMessage(outcome.thrown))]
    {
      effects := [Reset];
      if email == "" || password == "" {
        var message := RequiredMessage;
        effects := effects + [SetError(message), ToastError(message)];
        return;
      }
      effects := effects + [RunFlow(email, password)];
      match outcome
      case Returned(currentError) =>
        if ErrorTruthy(currentError) {
          effects := effects + [ToastError(ErrorText(currentError.value))];
        } else {
          effects := effects + [ToastSuccess("Logged in as " + email), Navigate("/")];
        }
      case Threw(thrown) =>
        var message := ThrownMessage(thrown);
        effects := effects + [LogError(message), SetError(message), ToastError(message)];
    }
  }
}
