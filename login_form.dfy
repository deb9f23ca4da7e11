/** The login form: a length-only identifier check, the same password rule
    as the sign-up forms, the error map built on submit, a submit that only
    waits 800 ms, and the Show/Hide password button. */
module LoginForm {
  import opened Wrappers
  import opened JsText
  import S = SignupForm

  const IdLength: nat := 7
  const IdLengthMessage: string := "Enter a 7-character Penn State ID"

  /** `validatePennStateId`: exactly seven characters, whitespace included. */
  function ValidatePennStateId(id: string): (r: bool)
    ensures r <==> |id| == IdLength
  {
    |id| == IdLength
  }

  /** The identifier's message: "required" when blank after trimming, the
      length message when it is not seven characters long, none otherwise. */
  function IdError(id: string): (r: Option<string>)
    ensures r == Some(S.IdRequired) <==> AllWhitespace(id)
    ensures r == Some(IdLengthMessage) <==> !AllWhitespace(id) && |id| != IdLength
    ensures r.None? <==> !AllWhitespace(id) && |id| == IdLength
  {
    if AllWhitespace(id) then Some(S.IdRequired)
    else if !ValidatePennStateId(id) then Some(IdLengthMessage)
    else None
  }

  /** "Required" is reported exactly when trimming leaves nothing. */
  lemma IdRequiredIffTrimEmpty(id: string)
    ensures IdError(id) == Some(S.IdRequired) <==> Trim(id) == []
  {
    TrimEmptyIffAllWhitespace(id);
  }

  /** The whole error map of one submit; the password rule is the sign-up forms' one. */
  function SubmitErrors(id: string, password: string): S.FormErrors {
    S.FormErrors(IdError(id), S.PasswordError(password))
  }

  /** The map is empty exactly when the identifier is seven characters, not
      all blank, and the password has at least six characters. */
  lemma NoErrorsIff(id: string, password: string)
    ensures S.NoErrors(SubmitErrors(id, password)) <==>
      |id| == IdLength && !AllWhitespace(id) && |password| >= S.MinPasswordLength
  {
  }

  /** The untouched field, seven spaces, passes the length check yet is
      reported as required, so the initial form never submits. */
  lemma InitialIdRequired(password: string)
    ensures ValidatePennStateId(S.InitialId)
    ensures IdError(S.InitialId) == Some(S.IdRequired)
    ensures !S.NoErrors(SubmitErrors(S.InitialId, password))
  {
    assert AllWhitespace(S.InitialId);
  }

  class Form {
    var pennStateId: string
    var password: string
    var showPassword: bool
    var isSubmitting: bool
    var errors: S.FormErrors
    /** Pending 800 ms submit waits. */
    var submitTimers: nat

    ghost predicate Valid()
      reads this
    {
      isSubmitting ==> submitTimers > 0
    }

    constructor()
      ensures Valid()
      ensures pennStateId == S.InitialId && password == [] && !showPassword
      ensures !isSubmitting && errors == S.FormErrors(None, None) && submitTimers == 0
    {
      pennStateId, password, showPassword := S.InitialId, [], false;
      isSubmitting, errors, submitTimers := false, S.FormErrors(None, None), 0;
    }

    /** `handleSubmit`: the error map is shown; any error stops the submit
        before the submitting flag is set. */
    method Submit()
      requires Valid()
      modifies this`errors, this`isSubmitting, this`submitTimers
      ensures Valid()
      ensures errors == SubmitErrors(pennStateId, password)
      ensures isSubmitting == (old(isSubmitting) || S.NoErrors(errors))
      ensures submitTimers == old(submitTimers) + (if S.NoErrors(errors) then 1 else 0)
    {
      errors := SubmitErrors(pennStateId, password);
      if !S.NoErrors(errors) {
        return;
      }
      isSubmitting := true;
      submitTimers := submitTimers + 1;
    }

    /** The 800 ms wait ends: the `finally` block clears the submitting flag. */
    method SubmitDone()
      requires Valid() && submitTimers > 0
      modifies this`isSubmitting, this`submitTimers
      ensures Valid()
      ensures !isSubmitting && submitTimers == old(submitTimers) - 1
    {
      isSubmitting := false;
      submitTimers := submitTimers - 1;
    }

    /** The Show/Hide button. */
    method TogglePassword()
      modifies this`showPassword
      ensures showPassword == !old(showPassword)
    {
      showPassword := !showPassword;
    }
  }
}
