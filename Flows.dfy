/**
 * Sequences of operations across components, proved from the components'
 * contracts alone: the store driving the guard, the onboarding screen's
 * navigation meeting the guard, and the user table's signup meeting login.
 */
module Flows {
  import opened Common
  import opened Storage
  import opened Session
  import opened RoutingGuard
  import opened Onboarding
  import opened Passwords
  import opened BearerAuth
  import opened Users

  /** Fresh install: landing, then sign up, onboarding, the tabs, and back to landing after signing out. */
  method FreshInstallJourney(token: string) returns (final: SessionState, stored: map<string, string>)
    requires token != ""
    ensures final == SessionState(None, true, None)
    ensures stored == map[]
  {
    var storage := new KeyValueStorage(map[]);
    var store := new AuthStore(storage);
    assert RootLayout(store.State(), None) == Blank;
    store.Initiate();
    assert store.State() == SessionState(None, true, Some(false));
    assert Redirect(store.State(), None) == None;

    var fetch := (request: AuthRequest) => Accepted(token);
    var signedUp := store.SignUp(fetch, "a@b.com", "secret1", Some("A"), Written);
    assert signedUp == Done && store.State() == SessionState(Some(token), true, Some(false));
    assert Redirect(store.State(), Some("auth")) == Some(OnboardingRoute);

    var completed := store.CompleteOnboarding(Written);
    assert completed == Done;
    assert Redirect(store.State(), Some("onboarding")) == None;
    assert Redirect(store.State(), FirstSegmentAt(Tabs)) == None;

    store.SignOut();
    assert storage.entries == map[];
    assert Redirect(store.State(), Some("(tabs)")) == Some(Landing);
    final, stored := store.State(), storage.entries;
  }

  /** After signing out, a new sign-up leaves the onboarding flag unknown, so the guard holds the user on the auth screens. */
  method SignUpAfterSignOutStaysOnAuth(store: AuthStore, fetch: AuthRequest -> AuthResponse, email: string, password: string, name: Option<string>)
    requires store.Valid() && store.isReady
    requires fetch(SignupRequest(email, password, name)).Accepted?
    requires fetch(SignupRequest(email, password, name)).accessToken != ""
    modifies store, store.storage
    ensures store.State() == SessionState(Some(fetch(SignupRequest(email, password, name)).accessToken), true, None)
    ensures Redirect(store.State(), Some("auth")) == None
  {
    store.SignOut();
    var r := store.SignUp(fetch, email, password, name, Written);
  }

  /** Once `completeOnboarding` succeeded, re-reading the flag keeps it true. */
  method CompleteThenCheck(store: AuthStore)
    requires store.Valid()
    modifies store, store.storage
    ensures store.onboardingCompleted == Some(true)
  {
    var r := store.CompleteOnboarding(Written);
    store.CheckOnboarding();
  }

  /**
   * A signed-in user leaving onboarding goes to the tabs.  When saving the flag worked the guard lets them
   * stay; when it failed the flag is still false and the guard sends them straight back to onboarding.
   */
  method FinishOnboarding(screen: OnboardingScreen, write: WriteResult) returns (route: Route)
    requires screen.Valid()
    requires screen.store.isReady && Truthy(screen.store.auth) && screen.store.onboardingCompleted == Some(false)
    modifies screen.store, screen.store.storage
    ensures route == Tabs
    ensures write.Written? ==> Redirect(screen.store.State(), FirstSegmentAt(route)) == None
    ensures write.WriteFailed? ==> Redirect(screen.store.State(), FirstSegmentAt(route)) == Some(OnboardingRoute)
  {
    route := screen.HandleSkip(write);
  }

  /** Whoever signs up can log in with the same password, and the token they get names their new account. */
  method SignupThenLogin(table: UserTable, crypto: Primitives, jwt: Jwt, email: string, password: string,
                         newId: string, salt: seq<Unicode.byte>, now: int) returns (r: Result<TokenResponse, HttpError>)
    requires table.Valid() && BcryptRoundTrips(crypto)
    requires FindByEmail(table.users, email).None?
    requires forall i :: 0 <= i < |table.users| ==> table.users[i].id != newId
    modifies table
    ensures r == Ok(Issue(jwt, newId, now))
  {
    var signedUp := table.Signup(crypto, jwt, email, password, None, newId, salt, now);
    HashThenVerify(crypto, password, salt);
    var last := |table.users| - 1;
    assert table.users[last].email == email && CredentialsMatch(crypto, table.users[last], password);
    r := table.Login(crypto, jwt, email, password, now);
    assert forall i :: 0 <= i < |table.users| && table.users[i].email == email ==> i == last;
  }
}
