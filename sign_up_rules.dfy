/** The decision logic of the sign-up form, as values: the three text inputs,
    the three inline error messages, the rule that maps an authentication
    failure code onto those messages, and one step of the form for each event
    the component reacts to. */
module SignUpRules {

  import opened Wrappers

  // Failure codes reported by the authentication backend that the form recognises.
  const WEAK_PASSWORD := "auth/weak-password"
  const INVALID_EMAIL := "auth/invalid-email"
  const EMAIL_IN_USE := "auth/email-already-in-use"
  const TOO_MANY_REQUESTS := "auth/too-many-requests"

  // Inline messages the form shows.
  const PASSWORD_TOO_SHORT := "Password must be at least 6 characters"
  const INVALID_EMAIL_MESSAGE := "Please enter a valid email."
  const EMAIL_IN_USE_MESSAGE := "Email is already in use"
  const TOO_MANY_REQUESTS_MESSAGE := "Too many requests. Try again later."
  const FULL_NAME_EMPTY := "Full name cannot be empty"

  /** The codes for which the email field gets a message when the email is non-empty. */
  const EMAIL_CODES: set<string> := {INVALID_EMAIL, EMAIL_IN_USE, TOO_MANY_REQUESTS}

  /** The three controlled text inputs of the form. */
  datatype Field = Email | Password | FullName

  datatype Inputs = Inputs(email: string, password: string, fullName: string)

  /** An inline error per input; None means no message is shown. */
  datatype FieldErrors = FieldErrors(
    emailError: Option<string>,
    passwordError: Option<string>,
    fullNameError: Option<string>)

  /** The pair handed to the backend's create-account call. */
  datatype Credentials = Credentials(email: string, password: string)

  /** Everything the form holds: the inputs, the messages, and the log of
      create-account calls it has made, oldest first. */
  datatype FormState = FormState(inputs: Inputs, errors: FieldErrors, submissions: seq<Credentials>)

  /** What the component reacts to: a keystroke in one input (the new raw
      string), a change of the backend's failure value (None when there is no
      failure), and a form submission. */
  datatype Event = Input(field: Field, value: string) | ErrorChanged(error: Option<string>) | Submit

  const NO_ERRORS := FieldErrors(None, None, None)

  /** The state of a freshly mounted form. */
  const INITIAL := FormState(Inputs("", "", ""), NO_ERRORS, [])

  function Value(inputs: Inputs, f: Field): string {
    match f
    case Email => inputs.email
    case Password => inputs.password
    case FullName => inputs.fullName
  }

  function Message(errors: FieldErrors, f: Field): Option<string> {
    match f
    case Email => errors.emailError
    case Password => errors.passwordError
    case FullName => errors.fullNameError
  }

  /** The fields whose inline message is currently shown. */
  function Flagged(errors: FieldErrors): set<Field> {
    set f: Field | Message(errors, f).Some?
  }

  /** Overwrites one input, verbatim (no trimming); the others stay as they were. */
  function Write(inputs: Inputs, f: Field, v: string): (r: Inputs)
    ensures Value(r, f) == v
    ensures forall g: Field :: g != f ==> Value(r, g) == Value(inputs, g)
  {
    match f
    case Email => inputs.(email := v)
    case Password => inputs.(password := v)
    case FullName => inputs.(fullName := v)
  }

  /** The email message chosen for a failure: the first matching branch wins,
      an empty email wins over every code, and a code outside EMAIL_CODES
      chooses no message. */
  function EmailMessage(email: string, code: string): (m: Option<string>)
    ensures email == "" || code == INVALID_EMAIL ==> m == Some(INVALID_EMAIL_MESSAGE)
    ensures email != "" && code == EMAIL_IN_USE ==> m == Some(EMAIL_IN_USE_MESSAGE)
    ensures email != "" && code == TOO_MANY_REQUESTS ==> m == Some(TOO_MANY_REQUESTS_MESSAGE)
    ensures m.Some? <==> email == "" || code in EMAIL_CODES
  {
    if email == "" || code == INVALID_EMAIL then Some(INVALID_EMAIL_MESSAGE)
    else if code == EMAIL_IN_USE then Some(EMAIL_IN_USE_MESSAGE)
    else if code == TOO_MANY_REQUESTS then Some(TOO_MANY_REQUESTS_MESSAGE)
    else None
  }

  /** The messages after the backend's failure value changes to `error`.
      With no failure every message is cleared. With a failure, each rule
      that fires writes its message and a rule that does not fire leaves the
      previous message in place: nothing is cleared. */
  function MapAuthError(prev: FieldErrors, inputs: Inputs, error: Option<string>): (next: FieldErrors)
    ensures error.None? ==> next == NO_ERRORS
    ensures error.Some? && (inputs.password == "" || error.value == WEAK_PASSWORD) ==>
              next.passwordError == Some(PASSWORD_TOO_SHORT)
    ensures error.Some? && inputs.password != "" && error.value != WEAK_PASSWORD ==>
              next.passwordError == prev.passwordError
    ensures error.Some? && (inputs.email == "" || error.value == INVALID_EMAIL) ==>
              next.emailError == Some(INVALID_EMAIL_MESSAGE)
    ensures error.Some? && inputs.email != "" && error.value == EMAIL_IN_USE ==>
              next.emailError == Some(EMAIL_IN_USE_MESSAGE)
    ensures error.Some? && inputs.email != "" && error.value == TOO_MANY_REQUESTS ==>
              next.emailError == Some(TOO_MANY_REQUESTS_MESSAGE)
    ensures error.Some? && inputs.email != "" && error.value !in EMAIL_CODES ==>
              next.emailError == prev.emailError
    ensures error.Some? && inputs.fullName == "" ==> next.fullNameError == Some(FULL_NAME_EMPTY)
    ensures error.Some? && inputs.fullName != "" ==> next.fullNameError == prev.fullNameError
    ensures error.Some? ==> Flagged(prev) <= Flagged(next)
  {
    match error
    case None => NO_ERRORS
    case Some(code) =>
      var email := EmailMessage(inputs.email, code);
      FieldErrors(
        if email.Some? then email else prev.emailError,
        if inputs.password == "" || code == WEAK_PASSWORD then Some(PASSWORD_TOO_SHORT) else prev.passwordError,
        if inputs.fullName == "" then Some(FULL_NAME_EMPTY) else prev.fullNameError)
  }

  /** Against a form that shows no message yet, a failure flags exactly the
      fields whose rule fires: the empty or weak password, the empty email or
      a recognised email code, the empty name; an unrecognised code on filled
      inputs flags nothing. */
  lemma FirstFailureFlags(inputs: Inputs, code: string)
    ensures var next := MapAuthError(NO_ERRORS, inputs, Some(code));
            (Password in Flagged(next) <==> inputs.password == "" || code == WEAK_PASSWORD) &&
            (Email in Flagged(next) <==> inputs.email == "" || code in EMAIL_CODES) &&
            (FullName in Flagged(next) <==> inputs.fullName == "")
  {
  }

  /** Running the rule a second time for the same failure and the same
      inputs changes nothing. */
  lemma MapAuthErrorIdempotent(prev: FieldErrors, inputs: Inputs, error: Option<string>)
    ensures var once := MapAuthError(prev, inputs, error);
            MapAuthError(once, inputs, error) == once
  {
  }

  /** One event applied to the form. A keystroke changes only its own input;
      a failure change changes only the messages; a submission only appends
      the current email and password to the log of create-account calls. */
  function Step(s: FormState, ev: Event): (next: FormState)
    ensures ev.Input? ==>
              Value(next.inputs, ev.field) == ev.value &&
              (forall g: Field :: g != ev.field ==> Value(next.inputs, g) == Value(s.inputs, g)) &&
              next.errors == s.errors && next.submissions == s.submissions
    ensures ev.ErrorChanged? ==>
              next.inputs == s.inputs && next.submissions == s.submissions &&
              next.errors == MapAuthError(s.errors, s.inputs, ev.error)
    ensures ev.Submit? ==>
              next.inputs == s.inputs && next.errors == s.errors &&
              next.submissions == s.submissions + [Credentials(s.inputs.email, s.inputs.password)]
  {
    match ev
    case Input(f, v) => s.(inputs := Write(s.inputs, f, v))
    case ErrorChanged(e) => s.(errors := MapAuthError(s.errors, s.inputs, e))
    case Submit => s.(submissions := s.submissions + [Credentials(s.inputs.email, s.inputs.password)])
  }
}
