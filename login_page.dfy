/** The login page: `handleLogin` gates the request on the email, posts the
    credentials, and on success writes `sentivox_user` itself and reloads the
    app at `/`. The request's outcome is a parameter; the toast shown and the
    navigation are recorded in fields. */
module LoginPage {
  import opened Common
  import opened EmailPolicy
  import opened Auth

  const HomeRoute: string := "/"
  const DefaultLoginFailure: string := "Invalid credentials. Please try again."

  /** The JSON body `{ email, password: password || undefined }`: an empty
      password is left out, for the server's default-credential flow. */
  datatype LoginRequest = LoginRequest(email: string, password: Option<string>)

  function RequestBody(email: string, password: string): (r: LoginRequest)
    ensures r.email == email
    ensures r.password.None? <==> password == ""
    ensures r.password.Some? ==> r.password.value == password
  {
    LoginRequest(email, if password == "" then None else Some(password))
  }

  /** The response to `POST /api/auth/login`, or a rejection (network
      failure or a body that is not JSON). */
  datatype LoginOutcome = Response(ok: bool, user: Option<User>, message: string) | Thrown

  /** The user the page stores: only an ok response carrying `data.user`. */
  function AcceptedUser(outcome: LoginOutcome): (u: Option<User>)
    ensures u.Some? <==> outcome.Response? && outcome.ok && outcome.user.Some?
    ensures u.Some? ==> u == outcome.user
  {
    match outcome
    case Response(ok, user, _) => if ok then user else None
    case Thrown => None
  }

  datatype Notice =
    | Problem(problem: EmailProblem)
    | Welcome
    | LoginFailed(description: string)
    | ErrorNotice

  /** The toast the response leads to. */
  function OutcomeNotice(outcome: LoginOutcome): (n: Notice)
    ensures AcceptedUser(outcome).Some? <==> n == Welcome
    ensures outcome.Thrown? ==> n == ErrorNotice
    ensures outcome.Response? && AcceptedUser(outcome).None? ==>
              n == LoginFailed(if outcome.message != "" then outcome.message else DefaultLoginFailure)
  {
    match outcome
    case Thrown => ErrorNotice
    case Response(ok, user, message) =>
      if ok && user.Some? then Welcome
      else LoginFailed(if message != "" then message else DefaultLoginFailure)
  }

  class LoginForm {
    var email: string
    var password: string
    var isLoading: bool
    var toast: Option<Notice>
    var navigatedTo: Option<string>
    const store: IdentityStore

    constructor (store: IdentityStore)
      ensures this.store == store
      ensures email == "" && password == "" && !isLoading && toast == None && navigatedTo == None
    {
      this.store := store;
      email := "";
      password := "";
      isLoading := false;
      toast := None;
      navigatedTo := None;
    }

    /** `handleLogin` up to its `await`: either a request goes out (and the
        page is loading) or a toast says why not. */
    method Submit() returns (request: Option<LoginRequest>)
      modifies this
      ensures request.Some? <==> EmailGate(email) == None
      ensures request.Some? ==> request.value == RequestBody(email, password) && isLoading
      ensures request.Some? ==> toast == old(toast)
      ensures request.None? ==> toast == Some(Problem(EmailGate(email).value)) && isLoading == old(isLoading)
      ensures email == old(email) && password == old(password) && navigatedTo == old(navigatedTo)
    {
      var problem := EmailGate(email);
      if problem.Some? {
        toast := Some(Problem(problem.value));
        return None;
      }
      isLoading := true;
      request := Some(RequestBody(email, password));
    }

    /** `handleLogin` after its `await`. */
    method Complete(outcome: LoginOutcome)
      modifies this, store
      ensures !isLoading
      ensures toast == Some(OutcomeNotice(outcome))
      ensures AcceptedUser(outcome).Some? ==>
                store.entry == Present(AcceptedUser(outcome).value) && navigatedTo == Some(HomeRoute)
      ensures AcceptedUser(outcome).None? ==>
                store.entry == old(store.entry) && navigatedTo == old(navigatedTo)
      ensures email == old(email) && password == old(password)
    {
      var accepted := AcceptedUser(outcome);
      if accepted.Some? {
        store.entry := Present(accepted.value);
        navigatedTo := Some(HomeRoute);
      }
      toast := Some(OutcomeNotice(outcome));
      isLoading := false;
    }
  }

  /** The page's login survives the reload it triggers: the provider that
      boots at `/` publishes the stored user before any server answer. */
  lemma LoginPageThenReload(outcome: LoginOutcome)
    requires AcceptedUser(outcome).Some?
    ensures var t := Bootstrap(InitialSession(Present(AcceptedUser(outcome).value)));
            t.user == AcceptedUser(outcome) && !t.isLoading
  {
  }
}
