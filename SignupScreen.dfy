/**
 * The sign-up screen's `handleSignup`: three ordered checks, each showing an
 * alert and stopping on failure, then `signUp` with the `loading` flag set
 * for the call and cleared in `finally`.
 */
module SignupScreen {
  import opened Common
  import opened Unicode
  import opened Storage
  import opened Session
  import opened Screens

  const FILL_REQUIRED := "Please fill in all required fields"
  const PASSWORDS_DIFFER := "Passwords do not match"
  const PASSWORD_TOO_SHORT := "Password must be at least 6 characters"
  const MIN_PASSWORD_LENGTH := 6
  const ERROR_TITLE := "Error"
  const FAILED_TITLE := "Signup Failed"
  const FAILED_FALLBACK := "Could not create account"

  /** The alert text of the first failing check, or None when all pass; JavaScript's `length` counts UTF-16 units. */
  function SignupValidation(email: string, password: string, confirm: string, name: string): (r: Option<string>)
    ensures r.None? <==> email != "" && password != "" && name != "" && password == confirm
                         && Utf16Length(password) >= MIN_PASSWORD_LENGTH
    ensures email == "" || password == "" || name == "" ==> r == Some(FILL_REQUIRED)
    ensures email != "" && password != "" && name != "" && password != confirm ==> r == Some(PASSWORDS_DIFFER)
    ensures (email != "" && password != "" && name != "" && password == confirm
             && Utf16Length(password) < MIN_PASSWORD_LENGTH) ==> r == Some(PASSWORD_TOO_SHORT)
  {
    if email == "" || password == "" || name == "" then Some(FILL_REQUIRED)
    else if password != confirm then Some(PASSWORDS_DIFFER)
    else if Utf16Length(password) < MIN_PASSWORD_LENGTH then Some(PASSWORD_TOO_SHORT)
    else None
  }

  /** What `handleSignup` shows and calls, given how `signUp` would end. */
  function SignupEvents(email: string, password: string, confirm: string, name: string, outcome: Completion): seq<UiEvent>
  {
    match SignupValidation(email, password, confirm, name)
    case Some(message) => [ShowAlert(ERROR_TITLE, message)]
    case None =>
      [SetLoading(true), CallSignUp(email, password, name)]
      + (if outcome.Thrown? then [FailureAlert(FAILED_TITLE, outcome.message, FAILED_FALLBACK)] else [])
      + [SetLoading(false)]
  }

  /** `signUp` is called, and then exactly once, if and only if all three checks pass. */
  lemma SignUpCalledIffValid(email: string, password: string, confirm: string, name: string, outcome: Completion)
    ensures var events := SignupEvents(email, password, confirm, name, outcome);
      && ((exists i :: 0 <= i < |events| && events[i].CallSignUp?) <==> SignupValidation(email, password, confirm, name).None?)
      && forall i, j :: 0 <= i < j < |events| && events[i].CallSignUp? ==> !events[j].CallSignUp?
  {
    var events := SignupEvents(email, password, confirm, name, outcome);
    if SignupValidation(email, password, confirm, name).None? {
      assert events[1].CallSignUp?;
    }
  }

  /** `loading` is on while `signUp` runs and off once the handler ends; a failed check never touches it. */
  lemma LoadingCoversTheCall(initial: bool, email: string, password: string, confirm: string, name: string, outcome: Completion)
    ensures var events := SignupEvents(email, password, confirm, name, outcome);
      && LoadingAfter(initial, events) == (if SignupValidation(email, password, confirm, name).None? then false else initial)
      && forall i :: 0 <= i < |events| && events[i].CallSignUp? ==> LoadingAfter(initial, events[..i])
  {
    var events := SignupEvents(email, password, confirm, name, outcome);
    if SignupValidation(email, password, confirm, name).None? {
      var middle := if outcome.Thrown? then [FailureAlert(FAILED_TITLE, outcome.message, FAILED_FALLBACK)] else [];
      assert events == [SetLoading(true), CallSignUp(email, password, name)] + middle + [SetLoading(false)];
      assert events[..1] == [SetLoading(true)];
    } else {
      LoadingAfterNoSet(initial, events);
    }
  }

  class SignupForm {
    var loading: bool
    const store: AuthStore

    constructor (store: AuthStore)
      ensures this.store == store && !loading
    {
      this.store := store;
      loading := false;
    }

    /** `handleSignup()` with the form's fields; `fetch` and `write` decide how the call to `signUp` ends. */
    method HandleSignup(fetch: AuthRequest -> AuthResponse, email: string, password: string, confirm: string, name: string,
                        write: WriteResult) returns (events: seq<UiEvent>)
      requires store.Valid()
      modifies this, store, store.storage
      ensures store.Valid()
      ensures store.isReady == old(store.isReady) && store.onboardingCompleted == old(store.onboardingCompleted)
      ensures var e := TokenExchange(fetch(SignupRequest(email, password, Some(name))), SIGNUP_FAILED, write,
                                     old(store.auth), old(store.storage.entries));
        && events == SignupEvents(email, password, confirm, name, e.completion)
        && loading == LoadingAfter(old(loading), events)
        && if SignupValidation(email, password, confirm, name).None?
           then store.auth == e.auth && store.storage.entries == e.entries
           else store.auth == old(store.auth) && store.storage.entries == old(store.storage.entries)
    {
      var invalid := SignupValidation(email, password, confirm, name);
      if invalid.Some? {
        events := [ShowAlert(ERROR_TITLE, invalid.value)];
        return;
      }
      loading := true;
      events := [SetLoading(true), CallSignUp(email, password, name)];
      var outcome := store.SignUp(fetch, email, password, Some(name), write);
      if outcome.Thrown? {
        events := events + [FailureAlert(FAILED_TITLE, outcome.message, FAILED_FALLBACK)];
      }
      loading := false;
      events := events + [SetLoading(false)];
    }
  }
}
