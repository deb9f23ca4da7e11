/** The older sign-up form revision: the same identifier check and error
    map as the current form, a submit that only waits 800 ms (no captcha),
    a "remember me" latch without companion commands, and a submit button
    that is disabled only while a submission is running. */
module LegacySignupForm {
  import opened Wrappers
  import S = SignupForm

  const SubmitDelayMs: nat := 800
  const RememberMeMs: nat := 3000

  /** The button's `disabled`: only the submitting flag, not the form's validity. */
  predicate SubmitDisabled(isSubmitting: bool) {
    isSubmitting
  }

  /** Unlike the current revision, the button is enabled on the untouched
      form although the form is invalid there. */
  lemma EnabledOnInvalidInitialForm()
    ensures !SubmitDisabled(false)
    ensures !S.IsFormValid(S.InitialId, [])
    ensures S.SubmitDisabled(false, S.InitialId, [])
  {
    S.InitialIdInvalid();
  }

  class Form {
    var pennStateId: string
    var password: string
    var isSubmitting: bool
    var errors: S.FormErrors
    var isRememberMeBlocking: bool
    /** Pending 800 ms submit waits and the pending 3 s remember-me timer. */
    var submitTimers: nat
    var rememberTimerPending: bool

    ghost predicate Valid()
      reads this
    {
      && (isSubmitting ==> submitTimers > 0)
      && isRememberMeBlocking == rememberTimerPending
    }

    constructor()
      ensures Valid()
      ensures pennStateId == S.InitialId && password == []
      ensures !isSubmitting && errors == S.FormErrors(None, None) && !isRememberMeBlocking
      ensures submitTimers == 0 && !rememberTimerPending
    {
      pennStateId, password := S.InitialId, [];
      isSubmitting, errors := false, S.FormErrors(None, None);
      isRememberMeBlocking := false;
      submitTimers, rememberTimerPending := 0, false;
    }

    /** `handleSubmit`: the error map is shown; an empty map starts a
        submission, which is the only thing that sets the submitting flag. */
    method Submit()
      requires Valid()
      modifies this`errors, this`isSubmitting, this`submitTimers
      ensures Valid()
      ensures errors == S.SubmitErrors(pennStateId, password)
      ensures isSubmitting == (old(isSubmitting) || S.NoErrors(errors))
      ensures submitTimers == old(submitTimers) + (if S.NoErrors(errors) then 1 else 0)
    {
      errors := S.SubmitErrors(pennStateId, password);
      if !S.NoErrors(errors) {
        return;
      }
      isSubmitting := true;
      submitTimers := submitTimers + 1;
    }

    /** The 800 ms wait ends: the `finally` block clears the submitting flag. */
    method SubmitDone()
      requires Valid() && submitTimers > 0
      modifies this`isSubmitting, this`submitTimers
      ensures Valid()
      ensures !isSubmitting && submitTimers == old(submitTimers) - 1
    {
      isSubmitting := false;
      submitTimers := submitTimers - 1;
    }

    /** `handleRememberMeClick`: ignored while blocking; otherwise it blocks
        until the 3 s timer fires. */
    method RememberMeClick()
      requires Valid()
      modifies this`isRememberMeBlocking, this`rememberTimerPending
      ensures Valid()
      ensures isRememberMeBlocking && rememberTimerPending
    {
      if isRememberMeBlocking {
        return;
      }
      isRememberMeBlocking := true;
      rememberTimerPending := true;
    }

    /** The remember-me timer fires and the latch opens. */
    method RememberMeTimeout()
      requires Valid() && rememberTimerPending
      modifies this`isRememberMeBlocking, this`rememberTimerPending
      ensures Valid()
      ensures !isRememberMeBlocking && !rememberTimerPending
    {
      isRememberMeBlocking := false;
      rememberTimerPending := false;
    }
  }
}
