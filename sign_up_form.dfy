/** The sign-up form component: three text inputs and three inline messages
    held as mutable state, the effect that runs when the authentication
    backend's failure value changes, the input handlers and the submit
    handler. The backend itself is outside the model: its failure value
    arrives as an argument, and each create-account call it would receive is
    appended to `submissions`. */
module SignUp {

  import opened Wrappers
  import opened SignUpRules

  class SignUpForm {
    var email: string
    var password: string
    var fullName: string

    var emailError: Option<string>
    var passwordError: Option<string>
    var fullNameError: Option<string>

    /** The (email, password) pairs passed to the create-account call, oldest first. */
    var submissions: seq<Credentials>

    function Inputs(): Inputs
      reads this
    {
      SignUpRules.Inputs(email, password, fullName)
    }

    function Errors(): FieldErrors
      reads this
    {
      FieldErrors(emailError, passwordError, fullNameError)
    }

    function State(): FormState
      reads this
    {
      FormState(Inputs(), Errors(), submissions)
    }

    /** A mounted form: every input empty, no message, no call made yet. */
    constructor ()
      ensures State() == INITIAL
    {
      email, password, fullName := "", "", "";
      emailError, passwordError, fullNameError := None, None, None;
      submissions := [];
    }

    /** The effect that runs whenever the backend's failure value changes.
        Absent failure: all three messages are cleared. Present failure: each
        rule that fires sets its message, and a message whose rule does not
        fire is left as it was. */
    method OnErrorChanged(error: Option<string>)
      modifies this
      ensures State() == Step(old(State()), ErrorChanged(error))
      ensures email == old(email) && password == old(password) && fullName == old(fullName)
      ensures submissions == old(submissions)
      ensures error.None? ==> emailError == None && passwordError == None && fullNameError == None
      ensures error.Some? ==> Flagged(old(Errors())) <= Flagged(Errors())
    {
      if error.None? {
        emailError := None;
        passwordError := None;
        fullNameError := None;
        return;
      }
      var code := error.value;

      if password == "" || code == WEAK_PASSWORD {
        passwordError := Some(PASSWORD_TOO_SHORT);
      }

      var message := EmailMessage(email, code);
      if message.Some? {
        emailError := message;
      }

      if fullName == "" {
        fullNameError := Some(FULL_NAME_EMPTY);
      }
    }

    /** Input handler of the email field: stores the raw string. */
    method SetEmail(v: string)
      modifies this
      ensures State() == Step(old(State()), Input(Email, v))
      ensures email == v && password == old(password) && fullName == old(fullName)
      ensures Errors() == old(Errors()) && submissions == old(submissions)
    {
      email := v;
    }

    /** Input handler of the password field: stores the raw string. */
    method SetPassword(v: string)
      modifies this
      ensures State() == Step(old(State()), Input(Password, v))
      ensures password == v && email == old(email) && fullName == old(fullName)
      ensures Errors() == old(Errors()) && submissions == old(submissions)
    {
      password := v;
    }

    /** Input handler of the full-name field: stores the raw string. */
    method SetFullName(v: string)
      modifies this
      ensures State() == Step(old(State()), Input(FullName, v))
      ensures fullName == v && email == old(email) && password == old(password)
      ensures Errors() == old(Errors()) && submissions == old(submissions)
    {
      fullName := v;
    }

    /** Submit handler: hands the current email and password to the
        create-account call, recorded here as one more entry of
        `submissions`; inputs and messages are untouched. */
    method Submit()
      modifies this
      ensures State() == Step(old(State()), SignUpRules.Submit)
      ensures submissions == old(submissions) + [Credentials(email, password)]
      ensures Inputs() == old(Inputs()) && Errors() == old(Errors())
    {
      submissions := submissions + [Credentials(email, password)];
    }
  }
}
