/** The reset-password page: on mount it reads `token` and `email` from the
    link and verifies them once; `isValidToken` is `null` while verifying,
    then `true` or `false`. The form's handler checks the two password fields
    before posting them; the submit button's `disabled` predicate and the two
    requirement indicators restate those checks. Request outcomes are
    parameters; toasts, the scheduled redirect and navigation are fields. */
module ResetPasswordPage {
  import opened Common

  const LoginRoute: string := "/login"
  const MinPasswordLength: nat := 8
  const RedirectDelayMs: nat := 1500
  const DefaultInvalidLink: string := "This password reset link is invalid or has expired."
  const DefaultResetFailure: string := "Failed to reset password. Please try again."

  /** `isValidToken`: `null`, `true`, `false`. */
  datatype TokenState = Verifying | Valid | Invalid

  /** The response to the verification request (`ok`, `data.valid`,
      `data.message`), or a rejection. */
  datatype VerifyOutcome = VerifyResponse(ok: bool, valid: bool, message: string) | VerifyThrown

  /** The verdict `verifyToken` stores. */
  function TokenVerdict(outcome: VerifyOutcome): (st: TokenState)
    ensures st != Verifying
    ensures st == Valid <==> outcome.VerifyResponse? && outcome.ok && outcome.valid
  {
    match outcome
    case VerifyResponse(ok, valid, _) => if ok && valid then Valid else Invalid
    case VerifyThrown => Invalid
  }

  /** A link parameter is usable when present and not empty (`!param`). */
  predicate Usable(param: Option<string>) {
    param.Some? && param.value != ""
  }

  /** The handler's checks, in order. */
  datatype PasswordCheck = MissingInformation | TooShort | Mismatch | Pass

  function CheckPasswords(password: string, confirm: string): (r: PasswordCheck)
    ensures r == MissingInformation <==> password == "" || confirm == ""
    ensures r == TooShort <==> password != "" && confirm != "" && |password| < MinPasswordLength
    ensures r == Mismatch <==>
              password != "" && confirm != "" && |password| >= MinPasswordLength && password != confirm
    ensures r == Pass <==> |password| >= MinPasswordLength && password == confirm
  {
    if password == "" || confirm == "" then MissingInformation
    else if |password| < MinPasswordLength then TooShort
    else if password != confirm then Mismatch
    else Pass
  }

  /** The submit button's `disabled` attribute. When the page is not loading
      the button is enabled exactly when the handler's checks all pass. */
  function SubmitDisabled(isLoading: bool, password: string, confirm: string): (d: bool)
    ensures isLoading ==> d
    ensures !isLoading ==> (d <==> CheckPasswords(password, confirm) != Pass)
  {
    isLoading || password == "" || confirm == "" || password != confirm ||
    |password| < MinPasswordLength
  }

  /** The first requirement indicator is green. */
  function LengthIndicatorGreen(password: string): (green: bool)
    ensures green ==> password != ""
    ensures password != "" ==> (green <==> CheckPasswords(password, password) != TooShort)
  {
    |password| >= MinPasswordLength
  }

  /** The second requirement indicator is green. */
  function MatchIndicatorGreen(password: string, confirm: string): (green: bool)
    ensures green ==> CheckPasswords(password, confirm) != MissingInformation &&
                      CheckPasswords(password, confirm) != Mismatch
    ensures green <==> password != "" && confirm != "" && password == confirm
  {
    password != "" && confirm != "" && password == confirm
  }

  /** The first indicator is green exactly when the length check passes, and
      both are green exactly when the handler would send. */
  lemma IndicatorsMatchHandler(password: string, confirm: string)
    ensures password != "" && confirm != "" ==>
              (LengthIndicatorGreen(password) <==> CheckPasswords(password, confirm) != TooShort)
    ensures LengthIndicatorGreen(password) && MatchIndicatorGreen(password, confirm)
            <==> CheckPasswords(password, confirm) == Pass
  {
  }

  datatype View = VerifyingView | InvalidLinkView | ResetFormView

  function ViewOf(st: TokenState): (v: View)
    ensures v == VerifyingView <==> st == Verifying
    ensures v == InvalidLinkView <==> st == Invalid
  {
    match st
    case Verifying => VerifyingView
    case Invalid => InvalidLinkView
    case Valid => ResetFormView
  }

  /** What the user can do on each view. */
  datatype Action = NavigateTo(route: string) | EditPasswords | SubmitPasswords

  function Actions(v: View): (acts: seq<Action>)
    ensures v == VerifyingView ==> acts == []
    ensures v == InvalidLinkView ==> acts == [NavigateTo(LoginRoute)]
    ensures SubmitPasswords in acts <==> v == ResetFormView
  {
    match v
    case VerifyingView => []
    case InvalidLinkView => [NavigateTo(LoginRoute)]
    case ResetFormView => [EditPasswords, SubmitPasswords]
  }

  datatype VerifyRequest = VerifyRequest(token: string, email: string)
  datatype ResetRequest = ResetRequest(email: string, token: string, password: string)
  datatype ResetOutcome = ResetResponse(ok: bool, message: string) | ResetThrown
  datatype Redirect = Redirect(route: string, delayMs: nat)

  datatype Notice =
    | InvalidLink(description: string)
    | VerifyError
    | Problem(check: PasswordCheck)
    | ResetSucceeded
    | ResetFailed(description: string)
    | ErrorNotice

  function VerifyNotice(outcome: VerifyOutcome): (n: Option<Notice>)
    ensures n.None? <==> TokenVerdict(outcome) == Valid
    ensures outcome.VerifyThrown? ==> n == Some(VerifyError)
    ensures outcome.VerifyResponse? && !(outcome.ok && outcome.valid) ==>
              n == Some(InvalidLink(if outcome.message != "" then outcome.message else DefaultInvalidLink))
  {
    match outcome
    case VerifyThrown => Some(VerifyError)
    case VerifyResponse(ok, valid, message) =>
      if ok && valid then None
      else Some(InvalidLink(if message != "" then message else DefaultInvalidLink))
  }

  function ResetNotice(outcome: ResetOutcome): (n: Notice)
    ensures n == ResetSucceeded <==> outcome.ResetResponse? && outcome.ok
    ensures outcome.ResetThrown? ==> n == ErrorNotice
    ensures outcome.ResetResponse? && !outcome.ok ==>
              n == ResetFailed(if outcome.message != "" then outcome.message else DefaultResetFailure)
  {
    match outcome
    case ResetThrown => ErrorNotice
    case ResetResponse(ok, message) =>
      if ok then ResetSucceeded
      else ResetFailed(if message != "" then message else DefaultResetFailure)
  }

  class ResetPasswordForm {
    var password: string
    var confirmPassword: string
    var token: string
    var email: string
    var isLoading: bool
    var tokenState: TokenState
    var toast: Option<Notice>
    var redirect: Option<Redirect>
    var navigatedTo: Option<string>

    constructor ()
      ensures password == "" && confirmPassword == "" && token == "" && email == ""
      ensures !isLoading && tokenState == Verifying
      ensures toast == None && redirect == None && navigatedTo == None
    {
      password, confirmPassword, token, email := "", "", "", "";
      isLoading := false;
      tokenState := Verifying;
      toast, redirect, navigatedTo := None, None, None;
    }

    function View(): View
      reads this
    {
      ViewOf(tokenState)
    }

    /** The mount effect: a link without a usable token or email is invalid
        and no request is made; otherwise one verification request goes out. */
    method Mount(tokenParam: Option<string>, emailParam: Option<string>)
      returns (verification: Option<VerifyRequest>)
      modifies this
      ensures verification.Some? <==> Usable(tokenParam) && Usable(emailParam)
      ensures verification.None? ==>
                tokenState == Invalid && token == old(token) && email == old(email)
      ensures verification.Some? ==>
                verification.value == VerifyRequest(tokenParam.value, emailParam.value) &&
                token == tokenParam.value && email == emailParam.value &&
                tokenState == old(tokenState)
      ensures password == old(password) && confirmPassword == old(confirmPassword)
      ensures isLoading == old(isLoading) && toast == old(toast)
      ensures redirect == old(redirect) && navigatedTo == old(navigatedTo)
    {
      if !Usable(tokenParam) || !Usable(emailParam) {
        tokenState := Invalid;
        return None;
      }
      token := tokenParam.value;
      email := emailParam.value;
      verification := Some(VerifyRequest(token, email));
    }

    /** `verifyToken` after its `await`. */
    method TokenChecked(outcome: VerifyOutcome)
      modifies this
      ensures tokenState == TokenVerdict(outcome)
      ensures toast == (if VerifyNotice(outcome).Some? then VerifyNotice(outcome) else old(toast))
      ensures password == old(password) && confirmPassword == old(confirmPassword)
      ensures token == old(token) && email == old(email) && isLoading == old(isLoading)
      ensures redirect == old(redirect) && navigatedTo == old(navigatedTo)
    {
      tokenState := TokenVerdict(outcome);
      var notice := VerifyNotice(outcome);
      if notice.Some? {
        toast := notice;
      }
    }

    /** "Back to Login", the invalid view's only button. */
    method BackToLogin()
      requires View() == InvalidLinkView
      modifies this
      ensures navigatedTo == Some(LoginRoute)
      ensures tokenState == old(tokenState) && toast == old(toast) && redirect == old(redirect)
      ensures password == old(password) && confirmPassword == old(confirmPassword)
      ensures token == old(token) && email == old(email) && isLoading == old(isLoading)
    {
      navigatedTo := Some(LoginRoute);
    }

    /** `handleResetPassword` up to its `await`: the request goes out only
        when every check passes; the token state is left alone. */
    method Submit() returns (request: Option<ResetRequest>)
      modifies this
      ensures request.Some? <==> CheckPasswords(password, confirmPassword) == Pass
      ensures request.Some? ==> request.value == ResetRequest(email, token, password) && isLoading
      ensures request.Some? ==> toast == old(toast)
      ensures request.None? ==>
                toast == Some(Problem(CheckPasswords(password, confirmPassword))) &&
                isLoading == old(isLoading)
      ensures tokenState == old(tokenState) && password == old(password)
      ensures confirmPassword == old(confirmPassword) && token == old(token) && email == old(email)
      ensures redirect == old(redirect) && navigatedTo == old(navigatedTo)
    {
      var check := CheckPasswords(password, confirmPassword);
      if check != Pass {
        toast := Some(Problem(check));
        return None;
      }
      isLoading := true;
      request := Some(ResetRequest(email, token, password));
    }

    /** `handleResetPassword` after its `await`: success schedules the move to
        the login page; failure stays on the form; loading ends either way. */
    method Complete(outcome: ResetOutcome)
      modifies this
      ensures !isLoading
      ensures toast == Some(ResetNotice(outcome))
      ensures outcome.ResetResponse? && outcome.ok ==> redirect == Some(Redirect(LoginRoute, RedirectDelayMs))
      ensures !(outcome.ResetResponse? && outcome.ok) ==> redirect == old(redirect)
      ensures tokenState == old(tokenState) && navigatedTo == old(navigatedTo)
      ensures password == old(password) && confirmPassword == old(confirmPassword)
      ensures token == old(token) && email == old(email)
    {
      if outcome.ResetResponse? && outcome.ok {
        redirect := Some(Redirect(LoginRoute, RedirectDelayMs));
      }
      toast := Some(ResetNotice(outcome));
      isLoading := false;
    }
  }

  /** Password examples: seven characters are refused, two different fields
      are refused, eight equal characters pass. */
  lemma PasswordExamples()
    ensures CheckPasswords("abcdefg", "abcdefg") == TooShort
    ensures CheckPasswords("abcdefgh", "abcdefgx") == Mismatch
    ensures CheckPasswords("abcdefgh", "abcdefgh") == Pass
    ensures SubmitDisabled(false, "abcdefg", "abcdefg")
    ensures !SubmitDisabled(false, "abcdefgh", "abcdefgh")
  {
  }
}
