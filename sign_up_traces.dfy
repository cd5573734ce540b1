/** The form over a whole sequence of events, and what holds of every such
    sequence: each input holds the last string written to it, messages are
    never cleared while a failure is present, the latest failure value decides
    whether any message is shown, and every submission is logged once. */
module SignUpTraces {

  import opened Wrappers
  import opened SignUpRules

  /** The form after the events `evs`, applied in order from `s`. */
  function Run(s: FormState, evs: seq<Event>): FormState
    decreases |evs|
  {
    if evs == [] then s else Step(Run(s, evs[..|evs| - 1]), evs[|evs| - 1])
  }

  /** Reference definition: the last string typed into `f`, or `init` if none was. */
  function LastWritten(f: Field, init: string, evs: seq<Event>): string
    decreases |evs|
  {
    if evs == [] then init
    else
      var ev := evs[|evs| - 1];
      if ev.Input? && ev.field == f then ev.value else LastWritten(f, init, evs[..|evs| - 1])
  }

  /** The backend's failure value after `evs`: that of the last failure change,
      or None when there was none. */
  function LatestError(evs: seq<Event>): Option<string>
    decreases |evs|
  {
    if evs == [] then None
    else
      var ev := evs[|evs| - 1];
      if ev.ErrorChanged? then ev.error else LatestError(evs[..|evs| - 1])
  }

  /** The number of submissions among `evs`. */
  function Submits(evs: seq<Event>): nat
    decreases |evs|
  {
    if evs == [] then 0 else Submits(evs[..|evs| - 1]) + (if evs[|evs| - 1].Submit? then 1 else 0)
  }

  /** Each input holds, verbatim, the last string written to it, whatever
      else happened in between. */
  lemma {:induction false} RunInputIsLastWritten(s: FormState, evs: seq<Event>, f: Field)
    ensures Value(Run(s, evs).inputs, f) == LastWritten(f, Value(s.inputs, f), evs)
    decreases |evs|
  {
    if evs != [] {
      RunInputIsLastWritten(s, evs[..|evs| - 1], f);
    }
  }

  /** Without a failure change the messages stay exactly as they were. */
  lemma {:induction false} RunWithoutErrorChangeKeepsErrors(s: FormState, evs: seq<Event>)
    requires forall i :: 0 <= i < |evs| ==> !evs[i].ErrorChanged?
    ensures Run(s, evs).errors == s.errors
    decreases |evs|
  {
    if evs != [] {
      RunWithoutErrorChangeKeepsErrors(s, evs[..|evs| - 1]);
    }
  }

  /** Messages are sticky: as long as no change reports the failure absent,
      every message shown at the start is still shown at the end, even after
      the input it complains about has been corrected. */
  lemma {:induction false} RunUnderFailureNeverClears(s: FormState, evs: seq<Event>)
    requires forall i :: 0 <= i < |evs| ==> evs[i] != ErrorChanged(None)
    ensures Flagged(s.errors) <= Flagged(Run(s, evs).errors)
    decreases |evs|
  {
    if evs != [] {
      RunUnderFailureNeverClears(s, evs[..|evs| - 1]);
    }
  }

  /** Once the failure is reported absent, and until it is reported again,
      no message is shown. */
  lemma {:induction false} RunClearedWithoutFailure(s: FormState, evs: seq<Event>)
    requires s.errors == NO_ERRORS
    ensures LatestError(evs).None? ==> Run(s, evs).errors == NO_ERRORS
    decreases |evs|
  {
    if evs != [] && !evs[|evs| - 1].ErrorChanged? {
      RunClearedWithoutFailure(s, evs[..|evs| - 1]);
    }
  }

  /** While the latest failure is a weak-password failure, the password
      message is shown, whatever the password is now and whatever was shown
      before. */
  lemma {:induction false} RunWeakPasswordShown(s: FormState, evs: seq<Event>)
    ensures LatestError(evs) == Some(WEAK_PASSWORD) ==>
              Run(s, evs).errors.passwordError == Some(PASSWORD_TOO_SHORT)
    decreases |evs|
  {
    if evs != [] && !evs[|evs| - 1].ErrorChanged? {
      RunWeakPasswordShown(s, evs[..|evs| - 1]);
    }
  }

  /** From a freshly mounted form, a message is shown only while the latest
      failure value is present. */
  lemma ShownOnlyUnderFailure(evs: seq<Event>)
    ensures Flagged(Run(INITIAL, evs).errors) != {} ==> LatestError(evs).Some?
  {
    RunClearedWithoutFailure(INITIAL, evs);
  }

  /** Every submission appends exactly one create-account call, and calls
      already made are never altered or dropped. */
  lemma {:induction false} RunLogsEverySubmission(s: FormState, evs: seq<Event>)
    ensures |Run(s, evs).submissions| == |s.submissions| + Submits(evs)
    ensures Run(s, evs).submissions[..|s.submissions|] == s.submissions
    decreases |evs|
  {
    if evs != [] {
      RunLogsEverySubmission(s, evs[..|evs| - 1]);
    }
  }

  /** The messages are NOT a function of the current inputs and the latest
      failure value: two histories that end with the same inputs and the same
      failure show different email messages, because an earlier failure's
      message survives a later unrecognised one. */
  lemma ErrorsDependOnHistory()
    ensures var shared := [Input(Email, "a@b.com"), Input(Password, "secret1"), Input(FullName, "A")];
            var later := ErrorChanged(Some("auth/network-request-failed"));
            var s1 := Run(INITIAL, shared + [ErrorChanged(Some(EMAIL_IN_USE)), later]);
            var s2 := Run(INITIAL, shared + [later]);
            s1.inputs == s2.inputs && s1.errors.emailError != s2.errors.emailError
  {
    var shared := [Input(Email, "a@b.com"), Input(Password, "secret1"), Input(FullName, "A")];
    var later := ErrorChanged(Some("auth/network-request-failed"));
    var t1 := shared + [ErrorChanged(Some(EMAIL_IN_USE)), later];
    var t2 := shared + [later];
    assert shared[..2][..1] == [Input(Email, "a@b.com")];
    assert Run(INITIAL, shared[..2][..1]).inputs == Inputs("a@b.com", "", "");
    assert Run(INITIAL, shared[..2]).inputs == Inputs("a@b.com", "secret1", "");
    var filled := Run(INITIAL, shared);
    assert filled.inputs == Inputs("a@b.com", "secret1", "A") && filled.errors == NO_ERRORS;
    assert t1[..|t1| - 1][..|t1| - 2] == shared;
    assert t2[..|t2| - 1] == shared;
    assert Run(INITIAL, t1[..|t1| - 1]).errors.emailError == Some(EMAIL_IN_USE_MESSAGE);
    assert "auth/network-request-failed" !in EMAIL_CODES;
  }
}
