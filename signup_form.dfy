/** The current sign-up form: the whitespace-insensitive "AAA1234" identifier
    check, the password length rule, the error map built on submit, the
    submit/captcha sequence and the "remember me" latch with its companion
    commands. The companion calls are returned as command lists. */
module SignupForm {
  import opened Wrappers
  import opened JsText
  import C = Companion

  /** The identifier field's initial value: seven spaces. */
  const InitialId: string := "       "

  const MinPasswordLength: nat := 6
  const SubmitDelayMs: nat := 800
  const RememberMeMs: nat := 3000

  const IdRequired: string := "Penn State ID is required"
  const IdFormat: string := "Format must be AAA1234 (3 letters + 4 digits)"
  const PasswordRequired: string := "Password is required"
  const PasswordTooShort: string := "Must be at least 6 characters"

  /** The two character classes of the pattern `^[A-Za-z]{3}\d{4}$`. */
  datatype CharClass = Letter | Digit

  predicate InClass(c: char, k: CharClass) {
    match k
    case Letter => IsAsciiLetter(c)
    case Digit => IsAsciiDigit(c)
  }

  /** The pattern as a sequence of classes: three letters, then four digits. */
  const IdPattern: seq<CharClass> := [Letter, Letter, Letter, Digit, Digit, Digit, Digit]

  /** Anchored match of a pattern made of single-character classes. */
  function Matches(t: string, p: seq<CharClass>): bool
    decreases |p|
  {
    if p == [] then t == []
    else t != [] && InClass(t[0], p[0]) && Matches(t[1..], p[1..])
  }

  /** An anchored class pattern matches exactly the strings of its length
      whose every character is in the class at the same place. */
  lemma {:induction false} MatchesIff(t: string, p: seq<CharClass>)
    ensures Matches(t, p) <==> |t| == |p| && forall i :: 0 <= i < |p| ==> InClass(t[i], p[i])
    decreases |p|
  {
    if p != [] && t != [] {
      MatchesIff(t[1..], p[1..]);
      if |t| == |p| {
        assert forall i :: 1 <= i < |p| ==> t[i] == t[1..][i - 1] && p[i] == p[1..][i - 1];
      }
    }
  }

  /** Three ASCII letters followed by four ASCII digits. */
  predicate IsIdShape(t: string) {
    && |t| == 7
    && (forall i :: 0 <= i < 3 ==> IsAsciiLetter(t[i]))
    && (forall i :: 3 <= i < 7 ==> IsAsciiDigit(t[i]))
  }

  /** `validatePennStateId`: whitespace removed, the rest must match the pattern. */
  function ValidatePennStateId(id: string): (r: bool)
    ensures r <==> IsIdShape(StripWhitespace(id))
  {
    var compact := StripWhitespace(id);
    MatchesIff(compact, IdPattern);
    Matches(compact, IdPattern)
  }

  /** Whitespace anywhere in the value does not change the verdict. */
  lemma ValidateIgnoresWhitespace(a: string, w: string, b: string)
    requires AllWhitespace(w)
    ensures ValidatePennStateId(a + w + b) == ValidatePennStateId(a + b)
  {
    StripAppend(a + w, b);
    StripAppend(a, w);
    StripAppend(a, b);
    assert StripWhitespace(w) == [];
    assert StripWhitespace(a) + [] == StripWhitespace(a);
  }

  /** A valid identifier has at least seven characters and is not blank. */
  lemma ValidIdNotBlank(id: string)
    requires ValidatePennStateId(id)
    ensures |id| >= 7 && !AllWhitespace(id)
  {
  }

  /** The initial value is invalid. */
  lemma InitialIdInvalid()
    ensures !ValidatePennStateId(InitialId)
    ensures IdError(InitialId) == Some(IdRequired)
  {
    assert AllWhitespace(InitialId);
  }

  /** `isPasswordValid`. */
  predicate IsPasswordValid(password: string) {
    |password| >= MinPasswordLength
  }

  /** `isFormValid`. */
  predicate IsFormValid(id: string, password: string) {
    ValidatePennStateId(id) && IsPasswordValid(password)
  }

  /** The submit button's `disabled`. */
  predicate SubmitDisabled(isSubmitting: bool, id: string, password: string) {
    isSubmitting || !IsFormValid(id, password)
  }

  /** The error map `nextErrors`: a message per field, or none. */
  datatype FormErrors = FormErrors(pennStateId: Option<string>, password: Option<string>)

  /** `Object.keys(nextErrors).length == 0`. */
  predicate NoErrors(e: FormErrors) {
    e.pennStateId.None? && e.password.None?
  }

  /** The identifier's message: "required" when blank after trimming, the
      format message when otherwise invalid, none when valid. The source's
      test `!id.trim()` is written here as "all whitespace";
      `IdRequiredIffTrimEmpty` shows the two agree. */
  function IdError(id: string): (r: Option<string>)
    ensures r == Some(IdRequired) <==> AllWhitespace(id)
    ensures r == Some(IdFormat) <==> !AllWhitespace(id) && !ValidatePennStateId(id)
    ensures r.None? <==> ValidatePennStateId(id)
  {
    if AllWhitespace(id) then Some(IdRequired)
    else if !ValidatePennStateId(id) then Some(IdFormat)
    else None
  }

  /** "Required" is reported exactly when trimming leaves nothing. */
  lemma IdRequiredIffTrimEmpty(id: string)
    ensures IdError(id) == Some(IdRequired) <==> Trim(id) == []
  {
    TrimEmptyIffAllWhitespace(id);
  }

  /** The password's message: "required" when empty, "at least 6" for one to five characters. */
  function PasswordError(password: string): (r: Option<string>)
    ensures r == Some(PasswordRequired) <==> password == []
    ensures r == Some(PasswordTooShort) <==> 0 < |password| < MinPasswordLength
    ensures r.None? <==> IsPasswordValid(password)
  {
    if password == [] then Some(PasswordRequired)
    else if |password| < MinPasswordLength then Some(PasswordTooShort)
    else None
  }

  /** The whole error map of one submit. */
  function SubmitErrors(id: string, password: string): FormErrors {
    FormErrors(IdError(id), PasswordError(password))
  }

  /** The map is empty exactly when the form is valid, so submit proceeds
      exactly when the button would be enabled outside a submission. */
  lemma NoErrorsIffFormValid(id: string, password: string)
    ensures NoErrors(SubmitErrors(id, password)) <==> IsFormValid(id, password)
    ensures NoErrors(SubmitErrors(id, password)) <==> !SubmitDisabled(false, id, password)
  {
  }

  /** What "remember me" issues on a click: anime-girl avatar, centred, large, shown. */
  const RememberCommands: seq<C.Command> :=
    [C.AvatarCmd(C.AnimeGirl), C.SetCenteredCmd(true), C.SetSizeCmd(C.Large), C.ShowCmd]

  /** What it issues 3 s later: uncentred, logo avatar, backtrack. */
  const RevertCommands: seq<C.Command> :=
    [C.SetCenteredCmd(false), C.AvatarCmd(C.Logo), C.BacktrackCmd]

  /** The full remember-me round trip on the companion. Because centring
      takes no snapshot, the backtrack at the end restores the snapshot the
      companion already had, not the state before the click: the position
      becomes the last recorded one (or stays), the size the last recorded
      one, or Large when none was recorded. */
  lemma RememberMeRoundTrip(s: C.State, nextId: nat)
    ensures var (r, n) := C.Run(s, nextId, RememberCommands + RevertCommands);
      && n == nextId
      && r.avatar == C.Logo && !r.isCentered && r.isVisible && r.hasActivated
      && r.position == s.lastPosition.GetOr(s.position)
      && r.size == s.lastSize.GetOr(C.Large)
      && r.message == s.message
  {
    var cs := RememberCommands + RevertCommands;
    var s1 := C.SetAvatar(s, C.AnimeGirl);
    var s2 := C.SetCentered(s1, true);
    var s3 := C.SetSize(s2, C.Large);
    var s4 := C.Show(s3);
    var s5 := C.SetCentered(s4, false);
    var s6 := C.SetAvatar(s5, C.Logo);
    var s7 := C.Backtrack(s6);
    assert C.Run(s, nextId, cs) == C.Run(s1, nextId, cs[1..]);
    assert C.Run(s1, nextId, cs[1..]) == C.Run(s2, nextId, cs[2..]);
    assert C.Run(s2, nextId, cs[2..]) == C.Run(s3, nextId, cs[3..]);
    assert C.Run(s3, nextId, cs[3..]) == C.Run(s4, nextId, cs[4..]);
    assert C.Run(s4, nextId, cs[4..]) == C.Run(s5, nextId, cs[5..]);
    assert C.Run(s5, nextId, cs[5..]) == C.Run(s6, nextId, cs[6..]);
    assert C.Run(s6, nextId, cs[6..]) == C.Run(s7, nextId, cs[7..]);
    assert cs[7..] == [];
  }

  /** From the companion's initial state nothing is recorded, so after the
      round trip it is left visible and large in its home corner. */
  lemma RememberMeFromInitialStaysLarge(nextId: nat)
    ensures var (r, _) := C.Run(C.Initial(), nextId, RememberCommands + RevertCommands);
      r.size == C.Large && r.size != C.Initial().size && r.position == C.HomePosition && r.isVisible
  {
    RememberMeRoundTrip(C.Initial(), nextId);
  }

  /** The form's state. The field values are public: the inputs' `onChange` assigns them. */
  class Form {
    var pennStateId: string
    var password: string
    var isSubmitting: bool
    var errors: FormErrors
    var isRememberMeBlocking: bool
    var showCaptchaGate: bool
    /** Pending 800 ms submit timers and the pending 3 s remember-me timer. */
    var submitTimers: nat
    var rememberTimerPending: bool

    ghost predicate Valid()
      reads this
    {
      && (isSubmitting ==> submitTimers > 0)
      && isRememberMeBlocking == rememberTimerPending
    }

    constructor()
      ensures Valid()
      ensures pennStateId == InitialId && password == []
      ensures !isSubmitting && errors == FormErrors(None, None) && !isRememberMeBlocking && !showCaptchaGate
      ensures submitTimers == 0 && !rememberTimerPending
    {
      pennStateId, password := InitialId, [];
      isSubmitting, errors := false, FormErrors(None, None);
      isRememberMeBlocking, showCaptchaGate := false, false;
      submitTimers, rememberTimerPending := 0, false;
    }

    /** `handleSubmit`: the error map is filled field by field and shown; a
        non-empty map stops there, otherwise the form enters the submitting
        state and the 800 ms timer is started. */
    method Submit()
      requires Valid()
      modifies this`errors, this`isSubmitting, this`submitTimers
      ensures Valid()
      ensures errors == SubmitErrors(pennStateId, password)
      ensures IsFormValid(pennStateId, password) ==> isSubmitting && submitTimers == old(submitTimers) + 1
      ensures !IsFormValid(pennStateId, password) ==>
        isSubmitting == old(isSubmitting) && submitTimers == old(submitTimers)
    {
      errors := SubmitErrors(pennStateId, password);
      NoErrorsIffFormValid(pennStateId, password);
      if !NoErrors(errors) {
        return;
      }
      isSubmitting := true;
      submitTimers := submitTimers + 1;
    }

    /** A submit timer fires: submitting ends and the captcha gate opens. */
    method SubmitTimeout()
      requires Valid() && submitTimers > 0
      modifies this`isSubmitting, this`showCaptchaGate, this`submitTimers
      ensures Valid()
      ensures !isSubmitting && showCaptchaGate && submitTimers == old(submitTimers) - 1
    {
      isSubmitting := false;
      showCaptchaGate := true;
      submitTimers := submitTimers - 1;
    }

    /** The captcha gate's `onClose` and `onPassed` both close it. */
    method CloseCaptchaGate()
      modifies this`showCaptchaGate
      ensures !showCaptchaGate
    {
      showCaptchaGate := false;
    }

    /** `handleRememberMeClick`: ignored while blocking; otherwise it blocks
        and issues the remember commands, with the revert scheduled. */
    method RememberMeClick() returns (commands: seq<C.Command>)
      requires Valid()
      modifies this`isRememberMeBlocking, this`rememberTimerPending
      ensures Valid()
      ensures old(isRememberMeBlocking) ==> commands == [] && isRememberMeBlocking && rememberTimerPending
      ensures !old(isRememberMeBlocking) ==> commands == RememberCommands && isRememberMeBlocking && rememberTimerPending
    {
      if isRememberMeBlocking {
        return [];
      }
      commands := RememberCommands;
      isRememberMeBlocking := true;
      rememberTimerPending := true;
    }

    /** The remember-me timer fires: blocking ends and the revert commands are issued. */
    method RememberMeTimeout() returns (commands: seq<C.Command>)
      requires Valid() && rememberTimerPending
      modifies this`isRememberMeBlocking, this`rememberTimerPending
      ensures Valid()
      ensures !isRememberMeBlocking && !rememberTimerPending && commands == RevertCommands
    {
      isRememberMeBlocking := false;
      rememberTimerPending := false;
      commands := RevertCommands;
    }
  }
}
