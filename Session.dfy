/**
 * The front end's session store (`useAuth`): the token, the readiness flag and
 * the onboarding flag, mirrored into two storage keys.  Every operation writes
 * storage first and updates memory afterwards.  The HTTP call is a function from
 * the request to the response; whether a storage write succeeds is an input.
 */
module Session {
  import opened Common
  import opened Storage

  const AUTH_TOKEN_KEY := "auth_token"
  const ONBOARDING_KEY := "onboarding_completed"

  /** The three requests the store sends: POST /auth/login, /auth/google and /auth/signup. */
  datatype AuthRequest =
    | LoginRequest(email: string, password: string)
    | GoogleRequest(idToken: string)
    | SignupRequest(email: string, password: string, name: Option<string>)

  /** How the request ends: a 2xx body with `access_token`, a non-2xx body with an optional `detail`, or `fetch` throwing. */
  datatype AuthResponse =
    | Accepted(accessToken: string)
    | Rejected(detail: Option<string>)
    | NetworkFailure(message: string)

  /** How an asynchronous store operation ends: resolved, or rejected with an `Error` whose message is given. */
  datatype Completion = Done | Thrown(message: string)

  /** The part of the store that components read. */
  datatype SessionState = SessionState(auth: Option<string>, isReady: bool, onboardingCompleted: Option<bool>)

  /** The state the store is created with. */
  const INITIAL_STATE := SessionState(None, false, None)

  /** The onboarding flag as storage records it: only the exact string "true" counts. */
  predicate StoredOnboarded(entries: map<string, string>)
  {
    Lookup(entries, ONBOARDING_KEY) == Some("true")
  }

  /** The token and storage after a sign-in style call, and how the call ends. */
  datatype Exchange = Exchange(auth: Option<string>, entries: map<string, string>, completion: Completion)

  /**
   * `signIn`, `signInWithGoogle` and `signUp` share one body: on an accepted response the token is written to
   * storage and then to memory; on a rejection they throw `detail` or their fallback text; a failed fetch or
   * a failed write propagates its own error, and then nothing has changed.
   */
  function TokenExchange(response: AuthResponse, fallback: string, write: WriteResult,
                         auth: Option<string>, entries: map<string, string>): (e: Exchange)
    ensures e.completion.Done? <==> response.Accepted? && write.Written?
    ensures e.completion.Done? ==> e.auth == Some(response.accessToken) && e.entries == entries[AUTH_TOKEN_KEY := response.accessToken]
    ensures e.completion.Thrown? ==> e.auth == auth && e.entries == entries
    ensures response.Rejected? ==> e.completion == Thrown(OrElse(response.detail, fallback))
    ensures response.NetworkFailure? ==> e.completion == Thrown(response.message)
    ensures response.Accepted? && write.WriteFailed? ==> e.completion == Thrown(write.message)
  {
    match response
    case Rejected(detail) => Exchange(auth, entries, Thrown(OrElse(detail, fallback)))
    case NetworkFailure(message) => Exchange(auth, entries, Thrown(message))
    case Accepted(token) =>
      match write
      case Written => Exchange(Some(token), entries[AUTH_TOKEN_KEY := token], Done)
      case WriteFailed(message) => Exchange(auth, entries, Thrown(message))
  }

  /** A server rejection always surfaces a non-empty message when the fallback is non-empty, as all three are. */
  lemma RejectionHasMessage(detail: Option<string>, fallback: string, write: WriteResult, auth: Option<string>, entries: map<string, string>)
    requires fallback != ""
    ensures TokenExchange(Rejected(detail), fallback, write, auth, entries).completion.message != ""
  {
  }

  const LOGIN_FAILED := "Login failed"
  const GOOGLE_LOGIN_FAILED := "Google login failed"
  const SIGNUP_FAILED := "Signup failed"

  class AuthStore {
    var auth: Option<string>
    var isReady: bool
    var onboardingCompleted: Option<bool>
    const storage: KeyValueStorage

    /** Memory agrees with storage: the token once the store is ready, the onboarding flag whenever it is known. */
    ghost predicate Valid()
      reads this, storage
    {
      && (isReady ==> auth == Lookup(storage.entries, AUTH_TOKEN_KEY))
      && (onboardingCompleted.Some? ==> onboardingCompleted.value == StoredOnboarded(storage.entries))
    }

    function State(): SessionState
      reads this
    {
      SessionState(auth, isReady, onboardingCompleted)
    }

    /** `create(...)`: nothing loaded, not ready, onboarding unknown, over whatever storage the device has. */
    constructor (storage: KeyValueStorage)
      ensures this.storage == storage && Valid()
      ensures State() == INITIAL_STATE
    {
      this.storage := storage;
      auth, isReady, onboardingCompleted := None, false, None;
    }

    method ExchangeForToken(fetch: AuthRequest -> AuthResponse, request: AuthRequest, fallback: string, write: WriteResult)
      returns (r: Completion)
      requires Valid()
      modifies this, storage
      ensures Valid()
      ensures isReady == old(isReady) && onboardingCompleted == old(onboardingCompleted)
      ensures Exchange(auth, storage.entries, r) == TokenExchange(fetch(request), fallback, write, old(auth), old(storage.entries))
    {
      match fetch(request)
      case Rejected(detail) => r := Thrown(OrElse(detail, fallback));
      case NetworkFailure(message) => r := Thrown(message);
      case Accepted(token) =>
        var written := storage.SetItem(AUTH_TOKEN_KEY, token, write);
        if written.WriteFailed? {
          return Thrown(written.message);
        }
        auth := Some(token);
        r := Done;
    }

    /** `signIn(email, password)`. */
    method SignIn(fetch: AuthRequest -> AuthResponse, email: string, password: string, write: WriteResult)
      returns (r: Completion)
      requires Valid()
      modifies this, storage
      ensures Valid()
      ensures isReady == old(isReady) && onboardingCompleted == old(onboardingCompleted)
      ensures Exchange(auth, storage.entries, r)
           == TokenExchange(fetch(LoginRequest(email, password)), LOGIN_FAILED, write, old(auth), old(storage.entries))
    {
      r := ExchangeForToken(fetch, LoginRequest(email, password), LOGIN_FAILED, write);
    }

    /** `signInWithGoogle(idToken)`. */
    method SignInWithGoogle(fetch: AuthRequest -> AuthResponse, idToken: string, write: WriteResult)
      returns (r: Completion)
      requires Valid()
      modifies this, storage
      ensures Valid()
      ensures isReady == old(isReady) && onboardingCompleted == old(onboardingCompleted)
      ensures Exchange(auth, storage.entries, r)
           == TokenExchange(fetch(GoogleRequest(idToken)), GOOGLE_LOGIN_FAILED, write, old(auth), old(storage.entries))
    {
      r := ExchangeForToken(fetch, GoogleRequest(idToken), GOOGLE_LOGIN_FAILED, write);
    }

    /** `signUp(email, password, name?)`: leaves the onboarding flag as it was. */
    method SignUp(fetch: AuthRequest -> AuthResponse, email: string, password: string, name: Option<string>, write: WriteResult)
      returns (r: Completion)
      requires Valid()
      modifies this, storage
      ensures Valid()
      ensures isReady == old(isReady) && onboardingCompleted == old(onboardingCompleted)
      ensures Exchange(auth, storage.entries, r)
           == TokenExchange(fetch(SignupRequest(email, password, name)), SIGNUP_FAILED, write, old(auth), old(storage.entries))
    {
      r := ExchangeForToken(fetch, SignupRequest(email, password, name), SIGNUP_FAILED, write);
    }

    /** `signOut()`: both keys removed, token and onboarding flag cleared, readiness kept. */
    method SignOut()
      requires Valid()
      modifies this, storage
      ensures Valid()
      ensures storage.entries == old(storage.entries) - {AUTH_TOKEN_KEY, ONBOARDING_KEY}
      ensures State() == SessionState(None, old(isReady), None)
    {
      storage.RemoveItem(AUTH_TOKEN_KEY);
      storage.RemoveItem(ONBOARDING_KEY);
      auth, onboardingCompleted := None, None;
    }

    /** `initiate()`: the stored token (null when absent), the onboarding flag as stored, and ready. */
    method Initiate()
      requires Valid()
      modifies this
      ensures Valid()
      ensures State() == SessionState(Lookup(storage.entries, AUTH_TOKEN_KEY), true, Some(StoredOnboarded(storage.entries)))
    {
      var token := storage.GetItem(AUTH_TOKEN_KEY);
      var flag := storage.GetItem(ONBOARDING_KEY);
      auth, onboardingCompleted, isReady := token, Some(flag == Some("true")), true;
    }

    /** `checkOnboarding()`: re-reads only the onboarding flag. */
    method CheckOnboarding()
      requires Valid()
      modifies this
      ensures Valid()
      ensures State() == SessionState(old(auth), old(isReady), Some(StoredOnboarded(storage.entries)))
    {
      var flag := storage.GetItem(ONBOARDING_KEY);
      onboardingCompleted := Some(flag == Some("true"));
    }

    /** `completeOnboarding()`: writes "true", then sets the flag; a failed write throws and changes nothing. */
    method CompleteOnboarding(write: WriteResult) returns (r: Completion)
      requires Valid()
      modifies this, storage
      ensures Valid()
      ensures write.Written? ==> r == Done && storage.entries == old(storage.entries)[ONBOARDING_KEY := "true"]
                                 && State() == SessionState(old(auth), old(isReady), Some(true))
      ensures write.WriteFailed? ==> r == Thrown(write.message) && storage.entries == old(storage.entries)
                                     && State() == old(State())
    {
      var written := storage.SetItem(ONBOARDING_KEY, "true", write);
      if written.WriteFailed? {
        return Thrown(written.message);
      }
      onboardingCompleted := Some(true);
      r := Done;
    }
  }
}
