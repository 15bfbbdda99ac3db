/** The session controller (`AuthProvider`) and the render gate
    (`ProtectedRoute`) of the client.

    The controller owns two state cells, `user` and `isLoading`, writes the
    `sentivox_user` entry of local storage, and navigates with `setLocation`.
    Requests are not performed here: each event method receives the outcome
    of its request as a parameter, and navigation is recorded in
    `navigatedTo`. The value-level `Session` and its step functions state what
    each event does; the class `AuthProvider` performs the same steps on its
    fields and the shared `IdentityStore`. */
module Auth {
  import opened Common

  datatype Role = Admin | Recruiter | Candidate

  datatype User = User(
    id: string,
    email: string,
    name: Option<string>,
    role: Option<Role>,
    isDefaultPassword: Option<bool>)

  /** The `sentivox_user` entry as `JSON.parse` sees it: missing, text that
      does not parse, or a user. */
  datatype CacheEntry = Absent | Corrupt | Present(user: User)

  /** The outcome of one `fetch` to `/api/auth/me` or `/api/auth/login`:
      an ok response with its `data.user` (possibly missing), a response that
      is not ok, or a rejected promise (network failure or a body that is not
      JSON). */
  datatype FetchOutcome = Ok(user: Option<User>) | NotOk | NetworkError

  const LoginRoute: string := "/login"

  /** What `localStorage.setItem('sentivox_user', JSON.stringify(u))` leaves:
      a missing user is stringified to `undefined`, which the next
      `JSON.parse` rejects. */
  function Stored(u: Option<User>): (e: CacheEntry)
    ensures e.Present? <==> u.Some?
    ensures u.Some? ==> e.user == u.value
    ensures u.None? ==> e == Corrupt
  {
    match u
    case Some(v) => Present(v)
    case None => Corrupt
  }

  /** The browser's local storage, shared by the controller and the login
      page. */
  class IdentityStore {
    var entry: CacheEntry

    constructor (entry: CacheEntry)
      ensures this.entry == entry
    {
      this.entry := entry;
    }
  }

  // ---------------------------------------------------------------------------
  // The controller, on values
  // ---------------------------------------------------------------------------

  /** Everything the controller's events read or write. */
  datatype Session = Session(
    user: Option<User>,
    isLoading: bool,
    cache: CacheEntry,
    navigatedTo: Option<string>)

  /** `isAuthenticated: !!user`. */
  predicate IsAuthenticated(s: Session) {
    s.user.Some?
  }

  /** The provider as first rendered: no user, loading, the cache as found. */
  function InitialSession(cache: CacheEntry): (s: Session)
    ensures !IsAuthenticated(s) && s.isLoading && s.cache == cache && s.navigatedTo == None
  {
    Session(None, true, cache, None)
  }

  /** What `checkAuth` leaves in flight when it yields: a background check
      against the user it parsed from the cache, or the blocking check. */
  datatype Pending = Background(parsed: User) | Blocking

  function BootstrapPending(cache: CacheEntry): (p: Pending)
    ensures p.Background? <==> cache.Present?
    ensures p.Background? ==> p.parsed == cache.user
  {
    match cache
    case Present(u) => Background(u)
    case _ => Blocking
  }

  /** `checkAuth` up to its first `await`. A parseable cached user is
      published and loading ends at once, before any server answer; a corrupt
      entry is removed; otherwise nothing changes yet (still loading). */
  function Bootstrap(s: Session): (t: Session)
    ensures s.cache.Present? ==>
              t.user == Some(s.cache.user) && !t.isLoading && t.cache == s.cache
    ensures s.cache.Corrupt? ==> t.cache == Absent && t.user == s.user && t.isLoading == s.isLoading
    ensures s.cache.Absent? ==> t == s
    ensures t.navigatedTo == s.navigatedTo
  {
    match s.cache
    case Present(u) => s.(user := Some(u), isLoading := false)
    case Corrupt => s.(cache := Absent)
    case Absent => s
  }

  /** The blocking check's answer (no usable cache): an ok response publishes
      and caches `data.user`; anything else clears the user and the cache.
      Loading is over in every case (the `finally`). */
  function BlockingAnswer(s: Session, answer: FetchOutcome): (t: Session)
    ensures !t.isLoading
    ensures answer.Ok? ==> t.user == answer.user && t.cache == Stored(answer.user)
    ensures !answer.Ok? ==> t.user == None && t.cache == Absent
    ensures t.navigatedTo == s.navigatedTo
  {
    match answer
    case Ok(u) => s.(user := u, cache := Stored(u), isLoading := false)
    case _ => s.(user := None, cache := Absent, isLoading := false)
  }

  /** The background check's answer, compared with the user `parsed` from the
      cache at bootstrap (not with the current user). */
  function BackgroundAnswer(s: Session, parsed: User, answer: FetchOutcome): (t: Session)
    // a session the server rejects is cleared and sent to the login page
    ensures answer.NotOk? ==>
              t.user == None && t.cache == Absent && t.navigatedTo == Some(LoginRoute)
    // a network failure changes nothing
    ensures answer.NetworkError? ==> t == s
    // only a different returned user is written, to both the state and the cache
    ensures answer.Ok? && answer.user.Some? && answer.user.value != parsed ==>
              t.user == answer.user && t.cache == Present(answer.user.value) &&
              t.navigatedTo == s.navigatedTo
    ensures answer.Ok? && (answer.user.None? || answer.user.value == parsed) ==> t == s
    ensures t.isLoading == s.isLoading
  {
    match answer
    case NotOk => s.(user := None, cache := Absent, navigatedTo := Some(LoginRoute))
    case NetworkError => s
    case Ok(u) =>
      if u.Some? && u.value != parsed then s.(user := u, cache := Present(u.value)) else s
  }

  /** `login`: only an ok response writes the user and the cache. */
  function LoginStep(s: Session, answer: FetchOutcome): (t: Session)
    ensures answer.Ok? ==> t.user == answer.user && t.cache == Stored(answer.user)
    ensures !answer.Ok? ==> t == s
    ensures t.isLoading == s.isLoading && t.navigatedTo == s.navigatedTo
  {
    if answer.Ok? then s.(user := answer.user, cache := Stored(answer.user)) else s
  }

  /** What `login` resolves to. */
  function LoginResult(answer: FetchOutcome): (ok: bool)
    ensures ok <==> answer.Ok?
  {
    match answer
    case Ok(_) => true
    case _ => false
  }

  /** `logout`: local state is cleared and the login page shown; the
      fire-and-forget server notification has no say in it, so it is not an
      input. */
  function LogoutStep(s: Session): (t: Session)
    ensures !IsAuthenticated(t) && t.cache == Absent && t.navigatedTo == Some(LoginRoute)
    ensures t.isLoading == s.isLoading
  {
    s.(user := None, cache := Absent, navigatedTo := Some(LoginRoute))
  }

  // ---------------------------------------------------------------------------
  // The controller, as an object
  // ---------------------------------------------------------------------------

  class AuthProvider {
    var user: Option<User>
    var isLoading: bool
    var navigatedTo: Option<string>
    const store: IdentityStore

    function State(): Session
      reads this, store
    {
      Session(user, isLoading, store.entry, navigatedTo)
    }

    constructor (store: IdentityStore)
      ensures this.store == store
      ensures State() == InitialSession(store.entry)
    {
      this.store := store;
      user := None;
      isLoading := true;
      navigatedTo := None;
    }

    /** `checkAuth` up to the point where it yields; the caller later feeds
        the answer of the request it left in flight to
        `CompleteBackgroundCheck` or `CompleteBlockingCheck`. */
    method CheckAuth() returns (pending: Pending)
      modifies this, store
      ensures pending == BootstrapPending(old(store.entry))
      ensures State() == Bootstrap(old(State()))
    {
      match store.entry
      case Present(u) =>
        user := Some(u);
        isLoading := false;
        pending := Background(u);
      case Corrupt =>
        store.entry := Absent;
        pending := Blocking;
      case Absent =>
        pending := Blocking;
    }

    method CompleteBlockingCheck(answer: FetchOutcome)
      modifies this, store
      ensures State() == BlockingAnswer(old(State()), answer)
    {
      match answer {
        case Ok(u) =>
          user := u;
          store.entry := Stored(u);
        case _ =>
          user := None;
          store.entry := Absent;
      }
      isLoading := false;
    }

    method CompleteBackgroundCheck(parsed: User, answer: FetchOutcome)
      modifies this, store
      ensures State() == BackgroundAnswer(old(State()), parsed, answer)
    {
      match answer
      case NotOk =>
        user := None;
        store.entry := Absent;
        navigatedTo := Some(LoginRoute);
      case NetworkError =>
      case Ok(u) =>
        if u.Some? && u.value != parsed {
          user := u;
          store.entry := Present(u.value);
        }
    }

    method Login(answer: FetchOutcome) returns (ok: bool)
      modifies this, store
      ensures ok == LoginResult(answer)
      ensures State() == LoginStep(old(State()), answer)
    {
      if answer.Ok? {
        user := answer.user;
        store.entry := Stored(answer.user);
        return true;
      }
      return false;
    }

    method Logout()
      modifies this, store
      ensures State() == LogoutStep(old(State()))
    {
      user := None;
      store.entry := Absent;
      navigatedTo := Some(LoginRoute);
    }
  }

  // ---------------------------------------------------------------------------
  // ProtectedRoute
  // ---------------------------------------------------------------------------

  datatype GuardView = Spinner | Nothing | Children

  /** What `ProtectedRoute` renders. */
  function GuardRender(isLoading: bool, isAuthenticated: bool, shouldRender: bool): (v: GuardView)
    ensures v == Spinner <==> isLoading
    ensures v == Children <==> !isLoading && isAuthenticated && shouldRender
  {
    if isLoading then Spinner
    else if !isAuthenticated || !shouldRender then Nothing
    else Children
  }

  /** The guard's own state: `shouldRender` and where its effect navigated. */
  datatype GuardState = GuardState(shouldRender: bool, navigatedTo: Option<string>)

  const InitialGuard: GuardState := GuardState(false, None)

  /** The guard's effect, run with the controller's published state. */
  function GuardEffect(g: GuardState, isLoading: bool, isAuthenticated: bool): (h: GuardState)
    ensures isLoading ==> h == g
    ensures !isLoading && !isAuthenticated ==>
              h.navigatedTo == Some(LoginRoute) && h.shouldRender == g.shouldRender
    ensures !isLoading && isAuthenticated ==> h.shouldRender && h.navigatedTo == g.navigatedTo
  {
    if isLoading then g
    else if !isAuthenticated then g.(navigatedTo := Some(LoginRoute))
    else g.(shouldRender := true)
  }

  /** The guard after its effect has run for session `s`, and what it shows. */
  function GuardViewAfterEffect(g: GuardState, s: Session): (v: GuardView)
    ensures v == Children <==> !s.isLoading && IsAuthenticated(s)
    ensures v == Spinner <==> s.isLoading
  {
    var h := GuardEffect(g, s.isLoading, IsAuthenticated(s));
    GuardRender(s.isLoading, IsAuthenticated(s), h.shouldRender)
  }

  class RouteGuard {
    var shouldRender: bool
    var navigatedTo: Option<string>

    function State(): GuardState
      reads this
    {
      GuardState(shouldRender, navigatedTo)
    }

    constructor ()
      ensures State() == InitialGuard
    {
      shouldRender := false;
      navigatedTo := None;
    }

    method Effect(isLoading: bool, isAuthenticated: bool)
      modifies this
      ensures State() == GuardEffect(old(State()), isLoading, isAuthenticated)
    {
      if !isLoading {
        if !isAuthenticated {
          navigatedTo := Some(LoginRoute);
        } else {
          shouldRender := true;
        }
      }
    }

    /** What the guard renders with the controller's published state. */
    function View(isLoading: bool, isAuthenticated: bool): (v: GuardView)
      reads this
      ensures v == Spinner <==> isLoading
      ensures v == Children <==> !isLoading && isAuthenticated && shouldRender
    {
      GuardRender(isLoading, isAuthenticated, shouldRender)
    }
  }

  // ---------------------------------------------------------------------------
  // Event sequences
  // ---------------------------------------------------------------------------

  /** A cached user loading the app offline sees the protected view at once,
      and the failed background check leaves it visible. */
  lemma OfflineCachedSessionStaysVisible(u: User)
    ensures var s1 := Bootstrap(InitialSession(Present(u)));
            var s2 := BackgroundAnswer(s1, u, NetworkError);
            GuardViewAfterEffect(InitialGuard, s1) == Children &&
            s2 == s1 && s2.cache == Present(u) &&
            GuardViewAfterEffect(InitialGuard, s2) == Children
  {
  }

  /** A cached session the server rejects ends with no user, an empty cache,
      a navigation to the login page and nothing protected on screen. */
  lemma RejectedCachedSessionIsCleared(u: User)
    ensures var s1 := Bootstrap(InitialSession(Present(u)));
            var s2 := BackgroundAnswer(s1, u, NotOk);
            s2.user == None && s2.cache == Absent && s2.navigatedTo == Some(LoginRoute) &&
            GuardViewAfterEffect(InitialGuard, s2) == Nothing
  {
  }

  /** Without a usable cache, the guard shows only the spinner until the
      blocking check answers, and shows the children only if it succeeds with
      a user. */
  lemma EmptyCacheWaitsForServer(cache: CacheEntry, answer: FetchOutcome)
    requires !cache.Present?
    ensures var s1 := Bootstrap(InitialSession(cache));
            var s2 := BlockingAnswer(s1, answer);
            GuardViewAfterEffect(InitialGuard, s1) == Spinner &&
            (GuardViewAfterEffect(InitialGuard, s2) == Children <==> answer.Ok? && answer.user.Some?)
  {
  }

  /** A successful login is still in effect after a reload: the next
      bootstrap publishes the same user before any server answer. */
  lemma LoginSurvivesReload(s: Session, u: User)
    ensures var t := Bootstrap(InitialSession(LoginStep(s, Ok(Some(u))).cache));
            t.user == Some(u) && !t.isLoading &&
            BootstrapPending(LoginStep(s, Ok(Some(u))).cache) == Background(u)
  {
  }

  /** After a logout, the next reload starts from an empty cache and waits
      for the server. */
  lemma LogoutSurvivesReload(s: Session)
    ensures var t := Bootstrap(InitialSession(LogoutStep(s).cache));
            t.isLoading && !IsAuthenticated(t) && BootstrapPending(LogoutStep(s).cache) == Blocking
  {
  }

  /** The background check compares with the user captured at bootstrap, so a
      late answer carrying another user re-publishes a session after a
      logout. */
  lemma LateBackgroundAnswerAfterLogout(u: User, v: User)
    requires u != v
    ensures var s1 := Bootstrap(InitialSession(Present(u)));
            var s2 := BackgroundAnswer(LogoutStep(s1), u, Ok(Some(v)));
            s2.user == Some(v) && s2.cache == Present(v)
  {
  }
}
