/** The forgot-password page: `handleSubmit` gates the request on the email,
    posts it, and switches to the "check your email" view on an ok response;
    "Send to a different email" switches back. */
module ForgotPasswordPage {
  import opened Common
  import opened EmailPolicy

  const DefaultRequestFailure: string := "Failed to send reset email. Please try again."

  /** The response to `POST /api/auth/forgot-password`, or a rejection. */
  datatype RequestOutcome = Response(ok: bool, message: string) | Thrown

  datatype Notice =
    | Problem(problem: EmailProblem)
    | EmailSentNotice
    | RequestFailed(description: string)
    | ErrorNotice

  function OutcomeNotice(outcome: RequestOutcome): (n: Notice)
    ensures n == EmailSentNotice <==> outcome.Response? && outcome.ok
    ensures outcome.Thrown? ==> n == ErrorNotice
    ensures outcome.Response? && !outcome.ok ==>
              n == RequestFailed(if outcome.message != "" then outcome.message else DefaultRequestFailure)
  {
    match outcome
    case Thrown => ErrorNotice
    case Response(ok, message) =>
      if ok then EmailSentNotice
      else RequestFailed(if message != "" then message else DefaultRequestFailure)
  }

  datatype View = RequestForm | SentConfirmation

  class ForgotPasswordForm {
    var email: string
    var isLoading: bool
    var emailSent: bool
    var toast: Option<Notice>

    constructor ()
      ensures email == "" && !isLoading && !emailSent && toast == None
    {
      email := "";
      isLoading := false;
      emailSent := false;
      toast := None;
    }

    function View(): (v: View)
      reads this
      ensures v == SentConfirmation <==> emailSent
    {
      if emailSent then SentConfirmation else RequestForm
    }

    /** `handleSubmit` up to its `await`: a request goes out only for an
        allowed address; otherwise the toast names the first failed check. */
    method Submit() returns (requested: bool)
      modifies this
      ensures requested <==> EmailGate(email) == None
      ensures requested ==> isLoading && toast == old(toast)
      ensures !requested ==> toast == Some(Problem(EmailGate(email).value)) && isLoading == old(isLoading)
      ensures email == old(email) && emailSent == old(emailSent)
    {
      var problem := EmailGate(email);
      if problem.Some? {
        toast := Some(Problem(problem.value));
        return false;
      }
      isLoading := true;
      requested := true;
    }

    /** `handleSubmit` after its `await`: only an ok response marks the email
        as sent; loading ends whatever happened. */
    method Complete(outcome: RequestOutcome)
      modifies this
      ensures !isLoading
      ensures emailSent == (old(emailSent) || (outcome.Response? && outcome.ok))
      ensures toast == Some(OutcomeNotice(outcome))
      ensures email == old(email)
    {
      if outcome.Response? && outcome.ok {
        emailSent := true;
      }
      toast := Some(OutcomeNotice(outcome));
      isLoading := false;
    }

    /** "Send to a different email": back to the form, the address kept. */
    method SendToDifferentEmail()
      modifies this
      ensures !emailSent && View() == RequestForm
      ensures email == old(email) && isLoading == old(isLoading) && toast == old(toast)
    {
      emailSent := false;
    }
  }
}
