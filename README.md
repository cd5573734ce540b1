# Sign-up form error mapping, modelled in Dafny

This project models the `SignUpForm` component of a blog front-end. The form
holds three text inputs (email, password, full name) and three optional inline
error messages. When the authentication backend's failure value changes, an
effect updates the messages from the current inputs and the failure code
(`auth/weak-password`, `auth/invalid-email`, `auth/email-already-in-use`,
`auth/too-many-requests`, or any other string). Three input handlers overwrite
their input verbatim. The submit handler passes the current email and password
to the backend's create-account call.

Files:

- `wrappers.dfy`: module `Wrappers`, the `Option` type used for an absent
  message and an absent failure.
- `sign_up_rules.dfy`: module `SignUpRules`. It holds the inputs, the messages
  and the form state as values. It defines the email-message choice
  (`EmailMessage`), the failure rule (`MapAuthError`) and one step of the form
  per event (`Step`).
- `sign_up_form.dfy`: module `SignUp`. Class `SignUpForm` holds the
  component's six pieces of mutable state plus a log of create-account calls.
  Each method is written step by step, as in the component. Each method is
  proved to leave the form in `Step` of its old state.
- `sign_up_traces.dfy`: module `SignUpTraces`. `Run` applies a whole sequence
  of events. The lemmas here hold for every event sequence.

The code only ever *sets* messages while a failure is present. A field whose
rule does not fire keeps the message it had, even one left by an earlier
failure for an input that has since been corrected. So the messages are not
recomputed from scratch. They depend on the form's history, not only on the
current inputs and the latest failure code. Descriptions of this form that say
otherwise disagree with the code, and the model follows the code.
`MapAuthError` therefore takes the previous messages as an argument.
`SignUpTraces.RunUnderFailureNeverClears` proves the messages are sticky.
`SignUpTraces.ErrorsDependOnHistory` exhibits two histories that end with the
same inputs and the same failure code but show different email messages.

## Model

| member | source | states |
|---|---|---|
| SignUpRules.EmailMessage | src/components/SignUpForm.tsx:36-48 | An empty email or `auth/invalid-email` gives "Please enter a valid email.", whatever the code. Otherwise `auth/email-already-in-use` gives "Email is already in use" and `auth/too-many-requests` gives "Too many requests. Try again later.". A message is chosen exactly when the email is empty or the code is one of those three. |
| SignUpRules.MapAuthError | src/components/SignUpForm.tsx:21-52 | No failure clears all three messages, whatever the inputs. Under a failure, an empty password or `auth/weak-password` sets the password message, and otherwise the previous password message is kept. The email message follows `EmailMessage`, and with a non-empty email and an unrecognised code the previous one is kept. An empty name sets the name message, and otherwise the previous one is kept, whatever the code. No message is ever cleared under a failure. |
| SignUpRules.FirstFailureFlags | src/components/SignUpForm.tsx:30-51 | Starting from no messages, a failure flags a field exactly when its rule fires. An unrecognised code on filled inputs flags nothing. |
| SignUpRules.MapAuthErrorIdempotent | src/components/SignUpForm.tsx:21-52 | Running the effect again for the same failure and inputs changes no message. |
| SignUpRules.Write | src/components/SignUpForm.tsx:63-85 | Writing an input stores the new string verbatim in that input and leaves the other two inputs as they were. |
| SignUpRules.Step | src/components/SignUpForm.tsx:21-85 | A keystroke changes only its own input. A failure change changes only the messages, as `MapAuthError` says. A submission only appends the current (email, password) to the log of create-account calls. |
| SignUp.SignUpForm.constructor | src/components/SignUpForm.tsx:10-16 | A mounted form has three empty inputs, no message and no call made. |
| SignUp.SignUpForm.OnErrorChanged | src/components/SignUpForm.tsx:21-52 | The effect, with its early return and its conditional setters, leaves the form in `Step` of its old state. It leaves the inputs and the call log unchanged. It clears every message when no failure is present, and otherwise removes no message. |
| SignUp.SignUpForm.SetEmail | src/components/SignUpForm.tsx:66 | Stores the new email verbatim. The other inputs, the messages and the call log are unchanged. |
| SignUp.SignUpForm.SetFullName | src/components/SignUpForm.tsx:75 | Stores the new full name verbatim. The other inputs, the messages and the call log are unchanged. |
| SignUp.SignUpForm.SetPassword | src/components/SignUpForm.tsx:84 | Stores the new password verbatim. The other inputs, the messages and the call log are unchanged. |
| SignUp.SignUpForm.Submit | src/components/SignUpForm.tsx:56-58 | Passes exactly the current (email, password) to the create-account call, which is appended to the log. Inputs and messages are unchanged. |
| SignUpTraces.RunInputIsLastWritten | src/components/SignUpForm.tsx:63-85 | After any sequence of events, each input holds the last string written to it, or its starting value if none was written. |
| SignUpTraces.RunWithoutErrorChangeKeepsErrors | src/components/SignUpForm.tsx:21-52 | Keystrokes and submissions alone never change a message. The effect is keyed on the failure value only. |
| SignUpTraces.RunUnderFailureNeverClears | src/components/SignUpForm.tsx:30-51 | While no change reports the failure absent, every message shown at the start is still shown at the end. |
| SignUpTraces.RunClearedWithoutFailure | src/components/SignUpForm.tsx:22-27 | Starting with no messages, when the latest failure value is absent, no message is shown. |
| SignUpTraces.RunWeakPasswordShown | src/components/SignUpForm.tsx:31-33 | While the latest failure is `auth/weak-password`, the password message is shown, whatever the password is now. |
| SignUpTraces.ShownOnlyUnderFailure | src/components/SignUpForm.tsx:21-52 | From a freshly mounted form, a message is shown only if the latest failure value is present. |
| SignUpTraces.RunLogsEverySubmission | src/components/SignUpForm.tsx:56-58 | Each submission adds exactly one create-account call. Calls already made are kept unchanged, in order. |
| SignUpTraces.ErrorsDependOnHistory | src/components/SignUpForm.tsx:31-51 | Two histories can end with the same inputs and the same failure code and still show different email messages. An earlier `auth/email-already-in-use` message survives a later unrecognised code. |

## Left out

- The backend hook `useCreateUserWithEmailAndPassword` and `getAuthInstance` (src/components/SignUpForm.tsx:2-3, 18-19) are a foreign library and a hosted service. The failure code is an argument of `OnErrorChanged`. The create-account call is recorded in `submissions`, and its outcome is not modelled.
- React's decision to run the effect (the `[error]` dependency, including the run at mount with no failure) is left to the caller of `OnErrorChanged`. At mount it would clear messages that are already absent, so the constructor's state covers it.
- The failure value is modelled by its `code` string alone. The component reads nothing else of it.
- The `loading` flag and the asynchronous completion of the request (src/components/SignUpForm.tsx:18, 87) carry no logic in this component.
- Rendering: the JSX and the `Input`, `PasswordInput` and `LoadingButton` components (src/components/SignUpForm.tsx:4-6, 54-91). Their sources are not part of this model.
- `preventDefault` and `noValidate` (src/components/SignUpForm.tsx:57, 60) are browser plumbing.
- src/components/HomeFeed.tsx only composes two feed components whose sources are not part of this model. It has no logic of its own.
- A message is modelled as its text. The `{ message }` wrapper object of the source carries nothing else.
