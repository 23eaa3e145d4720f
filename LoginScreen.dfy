/**
 * The log-in screen's `handleLogin`: an empty-field check, then `signIn`
 * followed, only when it succeeds, by `checkOnboarding`, with `loading` set
 * for the calls and cleared in `finally`.
 */
module LoginScreen {
  import opened Common
  import opened Storage
  import opened Session
  import opened Screens

  const FILL_ALL := "Please fill in all fields"
  const ERROR_TITLE := "Error"
  const FAILED_TITLE := "Login Failed"
  const FAILED_FALLBACK := "Invalid credentials"

  /** What `handleLogin` shows and calls, given how `signIn` would end (`checkOnboarding` only reads storage and cannot fail). */
  function LoginEvents(email: string, password: string, outcome: Completion): seq<UiEvent>
  {
    if email == "" || password == "" then [ShowAlert(ERROR_TITLE, FILL_ALL)]
    else
      [SetLoading(true), CallSignIn(email, password)]
      + (if outcome.Done? then [CallCheckOnboarding] else [FailureAlert(FAILED_TITLE, outcome.message, FAILED_FALLBACK)])
      + [SetLoading(false)]
  }

  /** An empty field alerts and does nothing else: no call, no change to `loading`. */
  lemma EmptyFieldCallsNothing(initial: bool, email: string, password: string, outcome: Completion)
    requires email == "" || password == ""
    ensures LoginEvents(email, password, outcome) == [ShowAlert(ERROR_TITLE, FILL_ALL)]
    ensures LoadingAfter(initial, LoginEvents(email, password, outcome)) == initial
  {
  }

  /** `checkOnboarding` is called only after `signIn`, and exactly when `signIn` succeeded; a failure alerts instead. */
  lemma CheckOnboardingOnlyAfterSignIn(email: string, password: string, outcome: Completion)
    ensures var events := LoginEvents(email, password, outcome);
      && (forall j :: 0 <= j < |events| && events[j].CallCheckOnboarding? ==>
            outcome.Done? && (exists i :: 0 <= i < j && events[i] == CallSignIn(email, password)))
      && ((exists j :: 0 <= j < |events| && events[j].CallCheckOnboarding?) <==> email != "" && password != "" && outcome.Done?)
  {
    var events := LoginEvents(email, password, outcome);
    if email != "" && password != "" && outcome.Done? {
      assert events == [SetLoading(true), CallSignIn(email, password), CallCheckOnboarding, SetLoading(false)];
      assert events[2].CallCheckOnboarding?;
      assert events[1] == CallSignIn(email, password);
    }
  }

  /** Once the calls start, `loading` is on for them and off again at the end, on every path. */
  lemma LoadingCoversTheCalls(initial: bool, email: string, password: string, outcome: Completion)
    requires email != "" && password != ""
    ensures var events := LoginEvents(email, password, outcome);
      && LoadingAfter(initial, events) == false
      && events[1] == CallSignIn(email, password) && LoadingAfter(initial, events[..1])
  {
    var events := LoginEvents(email, password, outcome);
    assert events[..1] == [SetLoading(true)];
  }

  class LoginForm {
    var loading: bool
    const store: AuthStore

    constructor (store: AuthStore)
      ensures this.store == store && !loading
    {
      this.store := store;
      loading := false;
    }

    /** `handleLogin()` with the form's fields; `fetch` and `write` decide how `signIn` ends. */
    method HandleLogin(fetch: AuthRequest -> AuthResponse, email: string, password: string, write: WriteResult)
      returns (events: seq<UiEvent>)
      requires store.Valid()
      modifies this, store, store.storage
      ensures store.Valid()
      ensures store.isReady == old(store.isReady)
      ensures var e := TokenExchange(fetch(LoginRequest(email, password)), LOGIN_FAILED, write,
                                     old(store.auth), old(store.storage.entries));
        && events == LoginEvents(email, password, e.completion)
        && loading == LoadingAfter(old(loading), events)
        && if email == "" || password == "" then
             store.State() == old(store.State()) && store.storage.entries == old(store.storage.entries)
           else
             && store.auth == e.auth && store.storage.entries == e.entries
             && store.onboardingCompleted == if e.completion.Done? then Some(StoredOnboarded(e.entries))
                                             else old(store.onboardingCompleted)
    {
      if email == "" || password == "" {
        events := [ShowAlert(ERROR_TITLE, FILL_ALL)];
        return;
      }
      loading := true;
      events := [SetLoading(true), CallSignIn(email, password)];
      var outcome := store.SignIn(fetch, email, password, write);
      if outcome.Done? {
        events := events + [CallCheckOnboarding];
        store.CheckOnboarding();
      } else {
        events := events + [FailureAlert(FAILED_TITLE, outcome.message, FAILED_FALLBACK)];
      }
      loading := false;
      events := events + [SetLoading(false)];
    }
  }
}
